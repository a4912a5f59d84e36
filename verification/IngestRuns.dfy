/** The re-indexing invariant over every interleaving of ingest jobs and deactivations. */
module IngestRuns {
  import opened Common
  import opened Labels
  import opened Ingest

  type JobId = nat

  /** A job between its two transactions, or done. */
  datatype Phase = Embedding(job: Job) | Finished(job: Job, vectors: seq<Vector>, result: Result)

  datatype State = State(store: Store, jobs: map<JobId, Phase>)

  datatype Event =
    | Begin(id: JobId, job: Job)
    | Finish(id: JobId, vectors: seq<Vector>)
    | Abandon(id: JobId)
    | Remove(key: string)

  function Next(s: State, e: Event): State {
    match e
    case Begin(id, job) =>
      if id in s.jobs then s
      else if Current(s.store, job) then
        s.(jobs := s.jobs[id := Finished(job, [], Unchanged(s.store.docs[ActiveIndex(s.store.docs, job.key).value].version))])
      else s.(jobs := s.jobs[id := Embedding(job)])
    case Finish(id, vectors) =>
      if id in s.jobs && s.jobs[id].Embedding? then
        var job := s.jobs[id].job;
        State(AfterSwap(s.store, job, vectors), s.jobs[id := Finished(job, vectors, SwapResult(s.store, job, vectors))])
      else s
    case Abandon(id) => if id in s.jobs && s.jobs[id].Embedding? then s.(jobs := s.jobs - {id}) else s
    case Remove(key) => s.(store := AfterDeactivate(s.store, key))
  }

  ghost predicate IsRun(states: seq<State>, events: seq<Event>) {
    && |states| == |events| + 1
    && states[0] == State(Store([], [], []), map[])
    && forall i :: 0 <= i < |events| ==> states[i + 1] == Next(states[i], events[i])
  }

  // ------------------------------------------------------------------ invariant

  /** The row belongs to the active version of its key. */
  predicate IsLive(docs: seq<Document>, row: Row) {
    exists i :: 0 <= i < |docs| && docs[i].key == row.key && docs[i].version == row.version && docs[i].status == Active
  }

  /** Some version in the documents accounts for the row, and sends it to this table. */
  predicate Filed(docs: seq<Document>, row: Row, secret: bool) {
    exists i :: 0 <= i < |docs| && docs[i].key == row.key && docs[i].version == row.version
      && row.index < docs[i].chunkCount && (secret <==> docs[i].level == Confidential)
  }

  /** Versions of a key rise, and an active version is the newest of its key. */
  ghost predicate Versioned(docs: seq<Document>) {
    && (forall i, j :: 0 <= i < j < |docs| && docs[i].key == docs[j].key ==>
          docs[i].version < docs[j].version && docs[i].status != Active)
    && (forall i :: 0 <= i < |docs| ==> docs[i].version >= 1)
  }

  ghost predicate TableOk(docs: seq<Document>, rows: seq<Row>, secret: bool) {
    forall row :: row in rows ==> (row.active <==> IsLive(docs, row)) && Filed(docs, row, secret)
  }

  ghost predicate Inv(s: Store) {
    Versioned(s.docs) && TableOk(s.docs, s.shared, false) && TableOk(s.docs, s.confidential, true)
  }

  lemma {:induction false} OneActive(docs: seq<Document>, key: string, i: nat)
    requires Versioned(docs) && i < |docs| && IsActive(docs[i], key)
    ensures ActiveIndex(docs, key) == Some(i)
  {
    ActiveIsFound(docs, key, 0, i);
    assert IsActive(docs[ActiveIndex(docs, key).value], key);
  }

  lemma RetireKeeps(docs: seq<Document>, key: string, status: DocStatus)
    requires Versioned(docs) && status != Active
    ensures var after := Retired(docs, key, status);
      && Versioned(after) && |after| == |docs|
      && (forall i :: 0 <= i < |docs| ==> after[i] == docs[i].(status := after[i].status))
      && (forall i :: 0 <= i < |docs| ==> !IsActive(after[i], key))
      && (forall i :: 0 <= i < |docs| && docs[i].key != key ==> after[i] == docs[i])
  {
    forall i | 0 <= i < |docs| ensures !IsActive(Retired(docs, key, status)[i], key) {
      if IsActive(docs[i], key) {
        OneActive(docs, key, i);
      }
    }
  }

  lemma OtherKeysStayLive(docs: seq<Document>, key: string, status: DocStatus, row: Row)
    requires Versioned(docs) && status != Active && row.key != key
    ensures IsLive(docs, row) <==> IsLive(Retired(docs, key, status), row)
  {
    RetireKeeps(docs, key, status);
    var after := Retired(docs, key, status);
    if IsLive(docs, row) {
      var i :| 0 <= i < |docs| && docs[i].key == row.key && docs[i].version == row.version && docs[i].status == Active;
      assert after[i] == docs[i];
    }
    if IsLive(after, row) {
      var i :| 0 <= i < |after| && after[i].key == row.key && after[i].version == row.version && after[i].status == Active;
      assert after[i] == docs[i];
    }
  }

  lemma RetiredStillFiles(docs: seq<Document>, key: string, status: DocStatus, row: Row, secret: bool)
    requires Versioned(docs) && status != Active && Filed(docs, row, secret)
    ensures Filed(Retired(docs, key, status), Silenced(row, key), secret)
  {
    RetireKeeps(docs, key, status);
    var f :| 0 <= f < |docs| && docs[f].key == row.key && docs[f].version == row.version
      && row.index < docs[f].chunkCount && (secret <==> docs[f].level == Confidential);
    var d := Retired(docs, key, status)[f];
    assert d == docs[f].(status := d.status);
  }

  lemma SilencedIsRight(docs: seq<Document>, key: string, status: DocStatus, row: Row)
    requires Versioned(docs) && status != Active && (row.active <==> IsLive(docs, row))
    ensures Silenced(row, key).active <==> IsLive(Retired(docs, key, status), Silenced(row, key))
  {
    RetireKeeps(docs, key, status);
    if row.key != key {
      OtherKeysStayLive(docs, key, status, row);
    } else {
      var after := Retired(docs, key, status);
      assert forall i :: 0 <= i < |after| && after[i].key == row.key ==> !IsActive(after[i], key);
    }
  }

  /** Retiring the active version and silencing the key keeps a table right. */
  lemma QuietKeepsTable(docs: seq<Document>, rows: seq<Row>, key: string, status: DocStatus, secret: bool)
    requires Versioned(docs) && TableOk(docs, rows, secret) && status != Active
    ensures TableOk(Retired(docs, key, status), Quiet(rows, key), secret)
    ensures forall row :: row in Quiet(rows, key) && row.key == key ==> !row.active
  {
    forall row | row in Quiet(rows, key)
      ensures (row.active <==> IsLive(Retired(docs, key, status), row)) && Filed(Retired(docs, key, status), row, secret)
      ensures row.key == key ==> !row.active
    {
      var k :| 0 <= k < |rows| && row == Silenced(rows[k], key);
      assert rows[k] in rows;
      RetiredStillFiles(docs, key, status, rows[k], secret);
      SilencedIsRight(docs, key, status, rows[k]);
    }
  }

  /** Adding a newer active version leaves every silenced or other row as it was. */
  lemma NewVersionKeepsTable(docs: seq<Document>, rows: seq<Row>, d: Document, secret: bool)
    requires TableOk(docs, rows, secret)
    requires forall i :: 0 <= i < |docs| && docs[i].key == d.key ==> docs[i].version < d.version
    requires forall row :: row in rows && row.key == d.key ==> !row.active
    ensures TableOk(docs + [d], rows, secret)
  {
    var after := docs + [d];
    forall row | row in rows ensures (row.active <==> IsLive(after, row)) && Filed(after, row, secret) {
      var f :| 0 <= f < |docs| && docs[f].key == row.key && docs[f].version == row.version
        && row.index < docs[f].chunkCount && (secret <==> docs[f].level == Confidential);
      assert after[f] == docs[f];
      if IsLive(docs, row) {
        var i :| 0 <= i < |docs| && docs[i].key == row.key && docs[i].version == row.version && docs[i].status == Active;
        assert after[i] == docs[i];
      }
      if IsLive(after, row) {
        var i :| 0 <= i < |after| && after[i].key == row.key && after[i].version == row.version && after[i].status == Active;
        assert i < |docs|;
      }
    }
  }

  lemma NewRowsAreLive(docs: seq<Document>, d: Document, job: Job, vectors: seq<Vector>)
    requires |vectors| == |job.chunks|
    requires d == NewDocument(job, d.version)
    ensures TableOk(docs + [d], NewRows(job, d.version, vectors), job.level == Confidential)
  {
    var after := docs + [d];
    assert after[|docs|] == d;
  }

  lemma TableUnion(docs: seq<Document>, a: seq<Row>, b: seq<Row>, secret: bool)
    requires TableOk(docs, a, secret) && TableOk(docs, b, secret)
    ensures TableOk(docs, a + b, secret)
  {
  }

  lemma VersionedAppend(docs: seq<Document>, d: Document)
    requires Versioned(docs) && d.version >= 1
    requires forall i :: 0 <= i < |docs| && docs[i].key == d.key ==> docs[i].version < d.version && docs[i].status != Active
    ensures Versioned(docs + [d])
  {
  }

  function TableOf(s: Store, level: Label): seq<Row> {
    if level == Confidential then s.confidential else s.shared
  }

  lemma TableAfterSwap(s: Store, job: Job, vectors: seq<Vector>, level: Label)
    requires SwapResult(s, job, vectors).Indexed?
    ensures TableOf(AfterSwap(s, job, vectors), level) ==
      var quiet := Quiet(TableOf(s, level), job.key);
      if level == Confidential <==> job.level == Confidential
      then quiet + NewRows(job, SwapResult(s, job, vectors).version, vectors) else quiet
  {
    PlusNothing(Quiet(TableOf(s, level), job.key));
  }

  lemma PlusNothing(rows: seq<Row>)
    ensures rows + [] == rows
  {
  }

  lemma SwapKeepsInv(s: Store, job: Job, vectors: seq<Vector>)
    requires Inv(s)
    ensures Inv(AfterSwap(s, job, vectors))
  {
    if SwapResult(s, job, vectors).Indexed? {
      var version := Latest(s.docs, job.key) + 1;
      var retired := Retired(s.docs, job.key, Superseded);
      var d := NewDocument(job, version);
      RetireKeeps(s.docs, job.key, Superseded);
      QuietKeepsTable(s.docs, s.shared, job.key, Superseded, false);
      QuietKeepsTable(s.docs, s.confidential, job.key, Superseded, true);
      forall i | 0 <= i < |retired| && retired[i].key == job.key ensures retired[i].version < version {
        LatestIsHighest(s.docs, job.key, |s.docs|, i);
      }
      VersionedAppend(retired, d);
      NewVersionKeepsTable(retired, Quiet(s.shared, job.key), d, false);
      NewVersionKeepsTable(retired, Quiet(s.confidential, job.key), d, true);
      NewRowsAreLive(retired, d, job, vectors);
      TableAfterSwap(s, job, vectors, job.level);
      TableAfterSwap(s, job, vectors, if job.level == Confidential then Public else Confidential);
      TableUnion(retired + [d], Quiet(TableOf(s, job.level), job.key), NewRows(job, version, vectors),
        job.level == Confidential);
    }
  }

  lemma DeactivateKeepsInv(s: Store, key: string)
    requires Inv(s)
    ensures Inv(AfterDeactivate(s, key))
  {
    if ActiveIndex(s.docs, key).Some? {
      RetireKeeps(s.docs, key, Deleted);
      QuietKeepsTable(s.docs, s.shared, key, Deleted, false);
      QuietKeepsTable(s.docs, s.confidential, key, Deleted, true);
    }
  }

  lemma {:induction false} InvHolds(states: seq<State>, events: seq<Event>, i: nat)
    requires IsRun(states, events) && i < |states|
    ensures Inv(states[i].store)
  {
    if i > 0 {
      InvHolds(states, events, i - 1);
      match events[i - 1]
      case Finish(id, vectors) =>
        if id in states[i - 1].jobs && states[i - 1].jobs[id].Embedding? {
          SwapKeepsInv(states[i - 1].store, states[i - 1].jobs[id].job, vectors);
        }
      case Remove(key) => DeactivateKeepsInv(states[i - 1].store, key);
      case _ =>
    }
  }

  // ------------------------------------------------------------------ which chunks are where

  /** What a row holds of a chunk. */
  datatype Item = Item(index: nat, text: string, vector: Vector)

  function ItemOf(row: Row): Item {
    Item(row.index, row.text, row.vector)
  }

  /** The chunks of a job, each with its vector. */
  function JobItems(job: Job, vectors: seq<Vector>): (items: seq<Item>)
    requires |vectors| == |job.chunks|
    ensures |items| == |job.chunks|
    ensures forall i :: 0 <= i < |items| ==> items[i] == Item(i, job.chunks[i].content, vectors[i])
  {
    ItemsUpTo(job, vectors, |job.chunks|)
  }

  function ItemsUpTo(job: Job, vectors: seq<Vector>, n: nat): (items: seq<Item>)
    requires |vectors| == |job.chunks| && n <= |job.chunks|
    ensures |items| == n
    ensures forall i :: 0 <= i < n ==> items[i] == Item(i, job.chunks[i].content, vectors[i])
  {
    if n == 0 then [] else ItemsUpTo(job, vectors, n - 1) + [Item(n - 1, job.chunks[n - 1].content, vectors[n - 1])]
  }

  /** What a table holds of one version, in table order. */
  function Items(rows: seq<Row>, key: string, version: nat): seq<Item> {
    if rows == [] then []
    else (if rows[0].key == key && rows[0].version == version then [ItemOf(rows[0])] else []) + Items(rows[1..], key, version)
  }

  /** What retrieval may return of a key from a table. */
  function ActiveItems(rows: seq<Row>, key: string): seq<Item> {
    if rows == [] then []
    else (if rows[0].key == key && rows[0].active then [ItemOf(rows[0])] else []) + ActiveItems(rows[1..], key)
  }

  lemma {:induction false} ItemsOfQuiet(rows: seq<Row>, quiet: string, key: string, version: nat)
    ensures Items(Quiet(rows, quiet), key, version) == Items(rows, key, version)
  {
    if rows != [] {
      assert Quiet(rows, quiet)[1..] == Quiet(rows[1..], quiet);
      ItemsOfQuiet(rows[1..], quiet, key, version);
    }
  }

  lemma {:induction false} ItemsOfUnion(a: seq<Row>, b: seq<Row>, key: string, version: nat)
    ensures Items(a + b, key, version) == Items(a, key, version) + Items(b, key, version)
  {
    if a == [] {
      assert a + b == b;
    } else {
      assert (a + b)[1..] == a[1..] + b;
      ItemsOfUnion(a[1..], b, key, version);
    }
  }

  lemma {:induction false} ItemsOfNew(rows: seq<Row>, items: seq<Item>, key: string, version: nat, k: string, v: nat)
    requires |rows| == |items|
    requires forall i :: 0 <= i < |rows| ==> rows[i].key == key && rows[i].version == version && ItemOf(rows[i]) == items[i]
    ensures Items(rows, k, v) == if k == key && v == version then items else []
  {
    if rows != [] {
      ItemsOfNew(rows[1..], items[1..], key, version, k, v);
      assert items == [items[0]] + items[1..];
    }
  }

  /** A version that no row of the table has. */
  lemma {:induction false} NoItems(rows: seq<Row>, key: string, version: nat)
    requires forall row :: row in rows ==> !(row.key == key && row.version == version)
    ensures Items(rows, key, version) == []
  {
    if rows != [] {
      assert rows[0] in rows;
      NoItems(rows[1..], key, version);
    }
  }

  /** The version a swap is about to create has no rows yet. */
  lemma NextVersionIsNew(docs: seq<Document>, rows: seq<Row>, secret: bool, key: string)
    requires TableOk(docs, rows, secret)
    ensures Items(rows, key, Latest(docs, key) + 1) == []
  {
    forall row | row in rows && row.key == key ensures row.version != Latest(docs, key) + 1 {
      assert Filed(docs, row, secret);
      var i :| 0 <= i < |docs| && docs[i].key == row.key && docs[i].version == row.version;
      LatestIsHighest(docs, key, |docs|, i);
    }
    NoItems(rows, key, Latest(docs, key) + 1);
  }

  lemma ItemsOfAppended(table: seq<Row>, job: Job, version: nat, vectors: seq<Vector>, key: string, v: nat)
    requires |vectors| == |job.chunks|
    ensures Items(Quiet(table, job.key) + NewRows(job, version, vectors), key, v)
      == Items(table, key, v) + (if key == job.key && v == version then JobItems(job, vectors) else [])
  {
    ItemsOfQuiet(table, job.key, key, v);
    ItemsOfUnion(Quiet(table, job.key), NewRows(job, version, vectors), key, v);
    ItemsOfNew(NewRows(job, version, vectors), JobItems(job, vectors), job.key, version, key, v);
  }

  /** A swap appends the job's chunks, as one version, to the table of the job's class. */
  lemma SwapAppendsItems(s: Store, job: Job, vectors: seq<Vector>, key: string, version: nat, level: Label)
    requires SwapResult(s, job, vectors).Indexed?
    ensures var added := key == job.key && version == SwapResult(s, job, vectors).version
        && (level == Confidential <==> job.level == Confidential);
      Items(TableOf(AfterSwap(s, job, vectors), level), key, version)
        == Items(TableOf(s, level), key, version) + (if added then JobItems(job, vectors) else [])
  {
    var before := Items(TableOf(s, level), key, version);
    TableAfterSwap(s, job, vectors, level);
    if level == Confidential <==> job.level == Confidential {
      ItemsOfAppended(TableOf(s, level), job, SwapResult(s, job, vectors).version, vectors, key, version);
    } else {
      ItemsOfQuiet(TableOf(s, level), job.key, key, version);
      assert before + [] == before;
    }
  }

  predicate IsIndexed(p: Phase) {
    p.Finished? && p.result.Indexed?
  }

  /** The document row a job's version has, whatever its status by now. */
  predicate RecordedAs(d: Document, job: Job, version: nat) {
    d == Document(job.key, version, job.digest, job.model, job.level, d.status, |job.chunks|)
  }

  /** The version holds, in the table its classification selects and nowhere else, exactly the
      chunks of the job that created it, with their vectors. */
  predicate JobFiled(s: Store, p: Phase)
    requires IsIndexed(p)
  {
    var job, version := p.job, p.result.version;
    && (exists i :: 0 <= i < |s.docs| && RecordedAs(s.docs[i], job, version))
    && |p.vectors| == |job.chunks|
    && Items(TableOf(s, job.level), job.key, version) == JobItems(job, p.vectors)
    && Items(TableOf(s, if job.level == Confidential then Public else Confidential), job.key, version) == []
  }

  ghost predicate AllFiled(s: State) {
    forall id :: id in s.jobs && IsIndexed(s.jobs[id]) ==> JobFiled(s.store, s.jobs[id])
  }

  predicate SameVersion(p: Phase, q: Phase) {
    IsIndexed(p) && IsIndexed(q) && p.job.key == q.job.key && p.result.version == q.result.version
  }

  /** No two jobs created the same version. */
  ghost predicate NoSharedVersions(s: State) {
    forall a, b :: a in s.jobs && b in s.jobs && a != b ==> !SameVersion(s.jobs[a], s.jobs[b])
  }

  lemma RetiredKeepsFiling(s: Store, key: string, status: DocStatus, t: Store, p: Phase)
    requires Versioned(s.docs) && status != Active && IsIndexed(p) && JobFiled(s, p)
    requires |t.docs| >= |s.docs| && t.docs[..|s.docs|] == Retired(s.docs, key, status)
    requires forall level: Label :: Items(TableOf(t, level), p.job.key, p.result.version)
                           == Items(TableOf(s, level), p.job.key, p.result.version)
    ensures JobFiled(t, p)
  {
    RetireKeeps(s.docs, key, status);
    var i :| 0 <= i < |s.docs| && RecordedAs(s.docs[i], p.job, p.result.version);
    assert t.docs[i] == t.docs[..|s.docs|][i];
    assert RecordedAs(t.docs[i], p.job, p.result.version);
  }

  /** A swap takes a version no job had and leaves the other jobs' versions as they were. */
  lemma SwapKeepsJob(s: Store, job: Job, vectors: seq<Vector>, p: Phase)
    requires Inv(s) && IsIndexed(p) && JobFiled(s, p)
    ensures JobFiled(AfterSwap(s, job, vectors), p)
    ensures SwapResult(s, job, vectors).Indexed? ==> !SameVersion(p, Finished(job, vectors, SwapResult(s, job, vectors)))
  {
    var result := SwapResult(s, job, vectors);
    if result.Indexed? {
      var i :| 0 <= i < |s.docs| && RecordedAs(s.docs[i], p.job, p.result.version);
      LatestIsHighest(s.docs, p.job.key, |s.docs|, i);
      forall level: Label ensures Items(TableOf(AfterSwap(s, job, vectors), level), p.job.key, p.result.version)
                           == Items(TableOf(s, level), p.job.key, p.result.version) {
        SwapAppendsItems(s, job, vectors, p.job.key, p.result.version, level);
      }
      RetiredKeepsFiling(s, job.key, Superseded, AfterSwap(s, job, vectors), p);
    }
  }

  /** A version without rows so far holds the job's chunks in the table of the job's class, and
      nothing in the other. */
  lemma NewVersionItems(s: Store, job: Job, vectors: seq<Vector>, level: Label)
    requires SwapResult(s, job, vectors).Indexed?
    requires Items(TableOf(s, level), job.key, SwapResult(s, job, vectors).version) == []
    ensures Items(TableOf(AfterSwap(s, job, vectors), level), job.key, SwapResult(s, job, vectors).version)
      == if level == Confidential <==> job.level == Confidential then JobItems(job, vectors) else []
  {
    var version := SwapResult(s, job, vectors).version;
    SwapAppendsItems(s, job, vectors, job.key, version, level);
    EmptyFirst(Items(TableOf(s, level), job.key, version), JobItems(job, vectors));
  }

  lemma EmptyFirst(before: seq<Item>, after: seq<Item>)
    requires before == []
    ensures before + after == after && before + [] == []
  {
  }

  lemma {:induction false} SwapFilesIn(s: Store, job: Job, vectors: seq<Vector>, level: Label)
    requires Inv(s) && SwapResult(s, job, vectors).Indexed?
    ensures Items(TableOf(AfterSwap(s, job, vectors), level), job.key, SwapResult(s, job, vectors).version)
      == if level == Confidential <==> job.level == Confidential then JobItems(job, vectors) else []
  {
    NextVersionIsNew(s.docs, TableOf(s, level), level == Confidential, job.key);
    NewVersionItems(s, job, vectors, level);
  }

  lemma SwapRecordsItsJob(s: Store, job: Job, vectors: seq<Vector>) returns (i: nat)
    requires SwapResult(s, job, vectors).Indexed?
    ensures var docs := AfterSwap(s, job, vectors).docs;
      i < |docs| && RecordedAs(docs[i], job, SwapResult(s, job, vectors).version)
  {
    i := |s.docs|;
  }

  lemma SwapFilesItsJob(s: Store, job: Job, vectors: seq<Vector>)
    requires Inv(s) && SwapResult(s, job, vectors).Indexed?
    ensures JobFiled(AfterSwap(s, job, vectors), Finished(job, vectors, SwapResult(s, job, vectors)))
  {
    SwapFilesIn(s, job, vectors, job.level);
    SwapFilesIn(s, job, vectors, if job.level == Confidential then Public else Confidential);
    var i := SwapRecordsItsJob(s, job, vectors);
  }

  lemma FinishKeepsFiling(s: State, id: JobId, vectors: seq<Vector>)
    requires Inv(s.store) && AllFiled(s) && NoSharedVersions(s) && id in s.jobs && s.jobs[id].Embedding?
    ensures var t := Next(s, Finish(id, vectors)); AllFiled(t) && NoSharedVersions(t)
  {
    var job := s.jobs[id].job;
    forall other | other in s.jobs && IsIndexed(s.jobs[other])
      ensures JobFiled(AfterSwap(s.store, job, vectors), s.jobs[other])
      ensures SwapResult(s.store, job, vectors).Indexed? ==>
        !SameVersion(s.jobs[other], Finished(job, vectors, SwapResult(s.store, job, vectors)))
    {
      SwapKeepsJob(s.store, job, vectors, s.jobs[other]);
    }
    if SwapResult(s.store, job, vectors).Indexed? {
      SwapFilesItsJob(s.store, job, vectors);
    }
  }

  lemma RemoveKeepsFiling(s: State, key: string)
    requires Inv(s.store) && AllFiled(s)
    ensures AllFiled(Next(s, Remove(key)))
  {
    if ActiveIndex(s.store.docs, key).Some? {
      forall id | id in s.jobs && IsIndexed(s.jobs[id]) ensures JobFiled(AfterDeactivate(s.store, key), s.jobs[id]) {
        var p := s.jobs[id];
        ItemsOfQuiet(s.store.shared, key, p.job.key, p.result.version);
        ItemsOfQuiet(s.store.confidential, key, p.job.key, p.result.version);
        RetiredKeepsFiling(s.store, key, Deleted, AfterDeactivate(s.store, key), p);
      }
    }
  }

  /** The same store, and no more indexed jobs. */
  predicate NoMoreIndexed(s: State, t: State) {
    t.store == s.store
    && forall id :: id in t.jobs && IsIndexed(t.jobs[id]) ==> id in s.jobs && s.jobs[id] == t.jobs[id]
  }

  lemma NoMoreIndexedKeepsFiling(s: State, t: State)
    requires AllFiled(s) && NoSharedVersions(s) && NoMoreIndexed(s, t)
    ensures AllFiled(t) && NoSharedVersions(t)
  {
  }

  lemma StepKeepsFiling(s: State, e: Event)
    requires Inv(s.store) && AllFiled(s) && NoSharedVersions(s)
    ensures AllFiled(Next(s, e)) && NoSharedVersions(Next(s, e))
  {
    match e
    case Finish(id, vectors) =>
      if id in s.jobs && s.jobs[id].Embedding? {
        FinishKeepsFiling(s, id, vectors);
      }
    case Remove(key) => RemoveKeepsFiling(s, key);
    case Begin(_, _) => NoMoreIndexedKeepsFiling(s, Next(s, e));
    case Abandon(_) => NoMoreIndexedKeepsFiling(s, Next(s, e));
  }

  /** Over every run: each version holds exactly the chunks of the one job that created it. */
  lemma {:induction false} JobsStayFiled(states: seq<State>, events: seq<Event>, i: nat)
    requires IsRun(states, events) && i < |states|
    ensures AllFiled(states[i]) && NoSharedVersions(states[i])
  {
    if i > 0 {
      JobsStayFiled(states, events, i - 1);
      InvHolds(states, events, i - 1);
      StepKeepsFiling(states[i - 1], events[i - 1]);
    }
  }

  // ------------------------------------------------------------------ the re-indexing invariant

  lemma {:induction false} ActiveItemsOfVersion(docs: seq<Document>, rows: seq<Row>, secret: bool, key: string, i: nat)
    requires Versioned(docs) && TableOk(docs, rows, secret) && i < |docs| && IsActive(docs[i], key)
    ensures ActiveItems(rows, key) == Items(rows, key, docs[i].version)
    ensures secret != (docs[i].level == Confidential) ==> ActiveItems(rows, key) == []
  {
    if rows != [] {
      ActiveItemsOfVersion(docs, rows[1..], secret, key, i);
      var row := rows[0];
      assert row in rows;
      if row.key == key {
        if row.active {
          var j :| 0 <= j < |docs| && docs[j].key == row.key && docs[j].version == row.version && docs[j].status == Active;
          OneActive(docs, key, i);
          OneActive(docs, key, j);
        }
        var f :| 0 <= f < |docs| && docs[f].key == row.key && docs[f].version == row.version
          && row.index < docs[f].chunkCount && (secret <==> docs[f].level == Confidential);
        assert row.version == docs[i].version ==> f == i;
      }
    }
  }

  lemma {:induction false} NoActiveItems(docs: seq<Document>, rows: seq<Row>, secret: bool, key: string)
    requires TableOk(docs, rows, secret) && ActiveIndex(docs, key).None?
    ensures ActiveItems(rows, key) == []
  {
    if rows != [] {
      NoActiveItems(docs, rows[1..], secret, key);
      var row := rows[0];
      assert row in rows;
      if row.key == key && row.active {
        var j :| 0 <= j < |docs| && docs[j].key == row.key && docs[j].version == row.version && docs[j].status == Active;
        ActiveIsFound(docs, key, 0, j);
      }
    }
  }

  lemma ActiveIsLatest(docs: seq<Document>, key: string)
    requires Versioned(docs) && ActiveIndex(docs, key).Some?
    ensures docs[ActiveIndex(docs, key).value].version == Latest(docs, key)
  {
    var i := ActiveIndex(docs, key).value;
    LatestIsHighest(docs, key, |docs|, i);
    var k := LatestIsThere(docs, key, |docs|);
  }

  /** At every commit of every interleaving a key has at most one active version, its newest;
      what retrieval may return for the key is exactly that version's chunks, all in the table
      its classification selects, and nothing when no version is active. */
  lemma OnlyTheActiveVersionIsVisible(states: seq<State>, events: seq<Event>, n: nat, key: string)
    requires IsRun(states, events) && n < |states|
    ensures var s := states[n].store;
      var i := ActiveIndex(s.docs, key);
      && (forall j :: 0 <= j < |s.docs| && IsActive(s.docs[j], key) ==> i == Some(j))
      && (i.None? ==> ActiveItems(s.shared, key) == [] && ActiveItems(s.confidential, key) == [])
      && (i.Some? ==>
            var d := s.docs[i.value];
            && d.version == Latest(s.docs, key)
            && ActiveItems(TableOf(s, d.level), key) == Items(TableOf(s, d.level), key, d.version)
            && ActiveItems(if d.level == Confidential then s.shared else s.confidential, key) == [])
  {
    InvHolds(states, events, n);
    var s := states[n].store;
    var i := ActiveIndex(s.docs, key);
    forall j | 0 <= j < |s.docs| && IsActive(s.docs[j], key) ensures i == Some(j) {
      OneActive(s.docs, key, j);
    }
    if i.None? {
      NoActiveItems(s.docs, s.shared, false, key);
      NoActiveItems(s.docs, s.confidential, true, key);
    } else {
      ActiveItemsOfVersion(s.docs, s.shared, false, key, i.value);
      ActiveItemsOfVersion(s.docs, s.confidential, true, key, i.value);
      ActiveIsLatest(s.docs, key);
    }
  }

  /** Old versions stay, only their status may change, and a retired one stays as it is. */
  predicate Grows(a: seq<Document>, b: seq<Document>) {
    |a| <= |b| && forall i :: 0 <= i < |a| ==> Ages(a[i], b[i])
  }

  predicate Ages(d: Document, e: Document) {
    e == d.(status := e.status) && (d.status != Active ==> e == d)
  }

  lemma SwapGrows(s: Store, job: Job, vectors: seq<Vector>)
    requires Inv(s)
    ensures Grows(s.docs, AfterSwap(s, job, vectors).docs)
  {
    RetireKeeps(s.docs, job.key, Superseded);
  }

  lemma DeactivateGrows(s: Store, key: string)
    requires Inv(s)
    ensures Grows(s.docs, AfterDeactivate(s, key).docs)
  {
    RetireKeeps(s.docs, key, Deleted);
  }

  lemma StepGrows(s: State, e: Event)
    requires Inv(s.store)
    ensures Grows(s.store.docs, Next(s, e).store.docs)
  {
    match e
    case Finish(id, vectors) =>
      if id in s.jobs && s.jobs[id].Embedding? {
        SwapGrows(s.store, s.jobs[id].job, vectors);
      }
    case Remove(key) => DeactivateGrows(s.store, key);
    case _ =>
  }

  lemma RunStepGrows(states: seq<State>, events: seq<Event>, n: nat)
    requires IsRun(states, events) && n < |events|
    ensures Grows(states[n].store.docs, states[n + 1].store.docs)
  {
    InvHolds(states, events, n);
    assert states[n + 1] == Next(states[n], events[n]);
    StepGrows(states[n], events[n]);
  }

  lemma GrowsTransitive(a: seq<Document>, b: seq<Document>, c: seq<Document>)
    requires Grows(a, b) && Grows(b, c)
    ensures Grows(a, c)
  {
    forall i | 0 <= i < |a| ensures Ages(a[i], c[i]) {
      assert Ages(a[i], b[i]) && Ages(b[i], c[i]);
    }
  }

  lemma {:induction false} GrowsThroughout(commits: seq<seq<Document>>, m: nat, n: nat)
    requires m <= n < |commits|
    requires forall i :: m <= i < n ==> Grows(commits[i], commits[i + 1])
    ensures Grows(commits[m], commits[n])
    decreases n - m
  {
    if m < n {
      GrowsThroughout(commits, m, n - 1);
      assert Grows(commits[n - 1], commits[n - 1 + 1]);
      GrowsTransitive(commits[m], commits[n - 1], commits[n]);
    }
  }

  /** The documents at every commit of a run. */
  function Commits(states: seq<State>): (commits: seq<seq<Document>>)
    ensures |commits| == |states|
    ensures forall i :: 0 <= i < |states| ==> commits[i] == states[i].store.docs
  {
    if states == [] then [] else Commits(states[..|states| - 1]) + [states[|states| - 1].store.docs]
  }

  /** Versions are only ever added; a retired version never becomes active again. */
  lemma VersionsOnlyGrow(states: seq<State>, events: seq<Event>, m: nat, n: nat)
    requires IsRun(states, events) && m <= n < |states|
    ensures Grows(states[m].store.docs, states[n].store.docs)
  {
    var commits := Commits(states);
    forall i | m <= i < n ensures Grows(commits[i], commits[i + 1]) {
      RunStepGrows(states, events, i);
    }
    GrowsThroughout(commits, m, n);
  }

  /** At every commit the versions of a key rise in the order they were added. */
  lemma VersionsRise(states: seq<State>, events: seq<Event>, n: nat)
    requires IsRun(states, events) && n < |states|
    ensures Versioned(states[n].store.docs)
  {
    InvHolds(states, events, n);
  }

  // ------------------------------------------------------------------ every row is a chunk

  /** The job made the version. */
  predicate Made(p: Phase, d: Document) {
    IsIndexed(p) && RecordedAs(d, p.job, p.result.version)
  }

  ghost predicate HasJob(jobs: map<JobId, Phase>, d: Document) {
    exists id :: id in jobs && Made(jobs[id], d)
  }

  ghost predicate AllHaveJobs(s: State) {
    forall i :: 0 <= i < |s.store.docs| ==> HasJob(s.jobs, s.store.docs[i])
  }

  /** Indexed jobs stay as they are. */
  predicate JobsStay(before: map<JobId, Phase>, after: map<JobId, Phase>) {
    forall id :: id in before && IsIndexed(before[id]) ==> id in after && after[id] == before[id]
  }

  lemma AgedHasJob(before: map<JobId, Phase>, after: map<JobId, Phase>, d: Document, e: Document)
    requires HasJob(before, d) && JobsStay(before, after) && e == d.(status := e.status)
    ensures HasJob(after, e)
  {
    var id :| id in before && Made(before[id], d);
    assert Made(after[id], e);
  }

  lemma StepKeepsJobs(s: State, e: Event)
    requires Inv(s.store) && AllHaveJobs(s)
    ensures AllHaveJobs(Next(s, e))
  {
    var t := Next(s, e);
    StepGrows(s, e);
    assert JobsStay(s.jobs, t.jobs);
    forall i | 0 <= i < |t.store.docs| ensures HasJob(t.jobs, t.store.docs[i]) {
      if i < |s.store.docs| {
        assert Ages(s.store.docs[i], t.store.docs[i]);
        AgedHasJob(s.jobs, t.jobs, s.store.docs[i], t.store.docs[i]);
      } else {
        NewVersionHasJob(s, e, i);
      }
    }
  }

  lemma NewVersionHasJob(s: State, e: Event, i: nat)
    requires Inv(s.store) && |s.store.docs| <= i < |Next(s, e).store.docs|
    ensures HasJob(Next(s, e).jobs, Next(s, e).store.docs[i])
  {
    var t := Next(s, e);
    assert e.Finish? && Made(t.jobs[e.id], t.store.docs[i]);
  }

  /** Over every run every stored version was made by a job. */
  lemma {:induction false} EveryVersionHasAJob(states: seq<State>, events: seq<Event>, n: nat)
    requires IsRun(states, events) && n < |states|
    ensures AllHaveJobs(states[n])
  {
    if n > 0 {
      EveryVersionHasAJob(states, events, n - 1);
      InvHolds(states, events, n - 1);
      StepKeepsJobs(states[n - 1], events[n - 1]);
    }
  }

  lemma {:induction false} RowIsItem(rows: seq<Row>, row: Row)
    requires row in rows
    ensures ItemOf(row) in Items(rows, row.key, row.version)
  {
    if row != rows[0] {
      assert row in rows[1..];
      RowIsItem(rows[1..], row);
    }
  }

  /** The row is a chunk of the job, in the table of its class, with its vector. */
  predicate IsChunkOf(row: Row, p: Phase, level: Label)
    requires IsIndexed(p)
  {
    && row.key == p.job.key && row.version == p.result.version
    && (level == Confidential <==> p.job.level == Confidential)
    && row.index < |p.job.chunks| == |p.vectors|
    && row.text == p.job.chunks[row.index].content && row.vector == p.vectors[row.index]
  }

  lemma FiledRowIsAChunk(s: Store, p: Phase, level: Label, row: Row)
    requires IsIndexed(p) && JobFiled(s, p) && row in TableOf(s, level)
    requires row.key == p.job.key && row.version == p.result.version
    requires level == Confidential <==> p.job.level == Confidential
    ensures IsChunkOf(row, p, level)
  {
    assert TableOf(s, level) == TableOf(s, p.job.level);
    RowIsItem(TableOf(s, level), row);
    var items := JobItems(p.job, p.vectors);
    var k :| 0 <= k < |items| && items[k] == ItemOf(row);
  }

  lemma RowHasAJob(s: State, level: Label, row: Row) returns (id: JobId)
    requires AllHaveJobs(s) && Filed(s.store.docs, row, level == Confidential)
    ensures id in s.jobs && IsIndexed(s.jobs[id])
    ensures row.key == s.jobs[id].job.key && row.version == s.jobs[id].result.version
    ensures level == Confidential <==> s.jobs[id].job.level == Confidential
  {
    var docs := s.store.docs;
    var i :| 0 <= i < |docs| && docs[i].key == row.key && docs[i].version == row.version
      && row.index < docs[i].chunkCount && (level == Confidential <==> docs[i].level == Confidential);
    assert HasJob(s.jobs, docs[i]);
    id :| id in s.jobs && Made(s.jobs[id], docs[i]);
  }

  /** At every commit of every interleaving each row, active or not, is a chunk of the job that
      made its version, in the table of that job's class, with the vector that job got for it. */
  lemma {:induction false} EveryRowIsAChunk(states: seq<State>, events: seq<Event>, n: nat, level: Label, row: Row) returns (id: JobId)
    requires IsRun(states, events) && n < |states| && row in TableOf(states[n].store, level)
    ensures id in states[n].jobs && IsIndexed(states[n].jobs[id]) && IsChunkOf(row, states[n].jobs[id], level)
  {
    InvHolds(states, events, n);
    JobsStayFiled(states, events, n);
    EveryVersionHasAJob(states, events, n);
    assert Filed(states[n].store.docs, row, level == Confidential);
    id := RowHasAJob(states[n], level, row);
    FiledRowIsAChunk(states[n].store, states[n].jobs[id], level, row);
  }

  /** And if the provider answers text by text, that vector is the one of the chunk's own text. */
  lemma {:induction false} EveryRowHasItsVector(
      states: seq<State>, events: seq<Event>, n: nat, level: Label, row: Row, id: JobId, embed: Embedder, one: string -> Vector)
    requires IsRun(states, events) && n < |states| && row in TableOf(states[n].store, level)
    requires id in states[n].jobs && IsIndexed(states[n].jobs[id])
    requires row.key == states[n].jobs[id].job.key && row.version == states[n].jobs[id].result.version
    requires EmbedFrom(EmbedTexts(states[n].jobs[id].job.chunks), 0, embed) == Some(states[n].jobs[id].vectors)
    requires Pointwise(embed, one)
    ensures var p := states[n].jobs[id];
      row.index < |p.job.chunks| && row.vector == one(p.job.chunks[row.index].embedText)
  {
    var maker := EveryRowIsAChunk(states, events, n, level, row);
    JobsStayFiled(states, events, n);
    OneMaker(states[n], row, level, maker, id);
    ChunkHasItsVector(row, states[n].jobs[id], level, embed, one);
  }

  lemma OneMaker(s: State, row: Row, level: Label, maker: JobId, id: JobId)
    requires NoSharedVersions(s) && maker in s.jobs && id in s.jobs
    requires IsIndexed(s.jobs[maker]) && IsIndexed(s.jobs[id]) && IsChunkOf(row, s.jobs[maker], level)
    requires row.key == s.jobs[id].job.key && row.version == s.jobs[id].result.version
    ensures maker == id
  {
    assert SameVersion(s.jobs[maker], s.jobs[id]);
  }

  lemma ChunkHasItsVector(row: Row, p: Phase, level: Label, embed: Embedder, one: string -> Vector)
    requires IsIndexed(p) && IsChunkOf(row, p, level) && Pointwise(embed, one)
    requires EmbedFrom(EmbedTexts(p.job.chunks), 0, embed) == Some(p.vectors)
    ensures row.vector == one(p.job.chunks[row.index].embedText)
  {
    VectorsLineUp(EmbedTexts(p.job.chunks), 0, embed, one);
  }

  // ------------------------------------------------------------------ idempotence

  function Versions(docs: seq<Document>, key: string): nat {
    if docs == [] then 0 else (if docs[|docs| - 1].key == key then 1 else 0) + Versions(docs[..|docs| - 1], key)
  }

  lemma {:induction false} RetireKeepsCount(docs: seq<Document>, after: seq<Document>, key: string)
    requires |after| == |docs| && forall i :: 0 <= i < |docs| ==> after[i].key == docs[i].key
    ensures Versions(after, key) == Versions(docs, key)
  {
    if docs != [] {
      RetireKeepsCount(docs[..|docs| - 1], after[..|docs| - 1], key);
    }
  }

  /** The step finishes a job for the key. */
  predicate SwapsKey(s: State, e: Event, key: string) {
    e.Finish? && e.id in s.jobs && s.jobs[e.id].Embedding? && s.jobs[e.id].job.key == key
  }

  /** Between m and n, the key is only touched by jobs with this digest and model, all of whose
      embeddings line up with their chunks. */
  ghost predicate OnlySameContent(states: seq<State>, events: seq<Event>, m: nat, n: nat, job: Job)
    requires IsRun(states, events) && m <= n < |states|
  {
    forall i :: m <= i < n ==> SameContentAt(states[i], events[i], job)
  }

  predicate SameContentAt(s: State, e: Event, job: Job) {
    && e != Remove(job.key)
    && (SwapsKey(s, e, job.key) ==>
          var other := s.jobs[e.id].job;
          other.digest == job.digest && other.model == job.model && |e.vectors| == |other.chunks|)
  }

  lemma SwapCounts(s: Store, job: Job, vectors: seq<Vector>, key: string)
    requires Inv(s)
    ensures var t := AfterSwap(s, job, vectors);
      && Versions(t.docs, key) ==
         Versions(s.docs, key) + (if job.key == key && SwapResult(s, job, vectors).Indexed? then 1 else 0)
      && (job.key != key ==> SameActive(s.docs, t.docs, key))
  {
    if SwapResult(s, job, vectors).Indexed? {
      var t := AfterSwap(s, job, vectors);
      var retired := Retired(s.docs, job.key, Superseded);
      RetireKeeps(s.docs, job.key, Superseded);
      RetireKeepsCount(s.docs, retired, key);
      assert t.docs[..|t.docs| - 1] == retired;
      if job.key != key {
        ActiveElsewhere(s.docs, t.docs, key);
      }
    }
  }

  lemma RemoveCounts(s: Store, removed: string, key: string)
    requires Inv(s)
    ensures var t := AfterDeactivate(s, removed);
      Versions(t.docs, key) == Versions(s.docs, key) && (removed != key ==> SameActive(s.docs, t.docs, key))
  {
    if ActiveIndex(s.docs, removed).Some? {
      var t := AfterDeactivate(s, removed);
      RetireKeeps(s.docs, removed, Deleted);
      RetireKeepsCount(s.docs, t.docs, key);
      if removed != key {
        ActiveElsewhere(s.docs, t.docs, key);
      }
    }
  }

  /** The key's active version is the same row in both. */
  predicate SameActive(docs: seq<Document>, after: seq<Document>, key: string) {
    && ActiveIndex(after, key) == ActiveIndex(docs, key)
    && (ActiveIndex(docs, key).Some? ==> after[ActiveIndex(docs, key).value] == docs[ActiveIndex(docs, key).value])
  }

  /** What a key's content comes to at a commit: its versions so far, and whether the content of
      the job is the active one. */
  datatype Tally = Tally(versions: nat, current: bool)

  function TallyOf(s: Store, job: Job): Tally {
    Tally(Versions(s.docs, job.key), Current(s, job))
  }

  /** Touching the key makes one version of the content if it is not current, and none if it is;
      it is current after if it was or the key was touched. */
  predicate OneVersionAtMost(a: Tally, b: Tally, touched: bool) {
    && b.versions == a.versions + (if touched && !a.current then 1 else 0)
    && (b.current <==> a.current || touched)
  }

  predicate AnyOf(touched: seq<bool>, m: nat, n: nat)
    requires m <= n <= |touched|
  {
    exists i :: m <= i < n && touched[i]
  }

  lemma {:induction false} OneVersionInAll(tallies: seq<Tally>, touched: seq<bool>, m: nat, n: nat)
    requires m <= n <= |touched| && |tallies| == |touched| + 1
    requires forall i :: m <= i < n ==> OneVersionAtMost(tallies[i], tallies[i + 1], touched[i])
    ensures OneVersionAtMost(tallies[m], tallies[n], AnyOf(touched, m, n))
    decreases n - m
  {
    if m < n {
      OneVersionInAll(tallies, touched, m, n - 1);
      assert OneVersionAtMost(tallies[n - 1], tallies[n - 1 + 1], touched[n - 1]);
      assert AnyOf(touched, m, n) <==> AnyOf(touched, m, n - 1) || touched[n - 1];
    }
  }

  /** One step of a run that only touches the key with the content of `job`. */
  lemma SameContentStep(s: State, e: Event, job: Job)
    requires Inv(s.store) && SameContentAt(s, e, job)
    ensures OneVersionAtMost(TallyOf(s.store, job), TallyOf(Next(s, e).store, job), SwapsKey(s, e, job.key))
  {
    match e
    case Finish(id, vectors) =>
      if id in s.jobs && s.jobs[id].Embedding? {
        var other := s.jobs[id].job;
        SwapCounts(s.store, other, vectors, job.key);
        if other.key == job.key {
          SwapTally(s.store, other, vectors, job);
        }
      }
    case Remove(key) => RemoveCounts(s.store, key, job.key);
    case _ =>
  }

  /** Swapping the same content in makes it current, with a new version exactly if it was not. */
  lemma SwapTally(s: Store, other: Job, vectors: seq<Vector>, job: Job)
    requires Inv(s) && other.key == job.key && other.digest == job.digest && other.model == job.model
    requires |vectors| == |other.chunks|
    ensures OneVersionAtMost(TallyOf(s, job), TallyOf(AfterSwap(s, other, vectors), job), true)
  {
    SwapCounts(s, other, vectors, job.key);
    SwapMakesCurrent(s, other, vectors);
  }

  /** Rows of other keys do not move a key's active version. */
  lemma ActiveElsewhere(docs: seq<Document>, after: seq<Document>, key: string)
    requires Versioned(docs) && |docs| <= |after|
    requires forall i :: 0 <= i < |docs| ==> docs[i].key == after[i].key && (docs[i].key == key ==> after[i] == docs[i])
    requires forall i :: |docs| <= i < |after| ==> after[i].key != key
    ensures SameActive(docs, after, key)
  {
    var i, j := ActiveIndex(docs, key), ActiveIndex(after, key);
    if i.Some? {
      assert IsActive(after[i.value], key);
      ActiveIsFound(after, key, 0, i.value);
    }
    if j.Some? {
      assert IsActive(docs[j.value], key);
      OneActive(docs, key, j.value);
    }
  }

  /** Which steps finish a job for the key. */
  function Touches(states: seq<State>, events: seq<Event>, key: string): (touched: seq<bool>)
    requires |states| == |events| + 1
    ensures |touched| == |events|
    ensures forall i :: 0 <= i < |events| ==> touched[i] == SwapsKey(states[i], events[i], key)
    decreases |events|
  {
    if events == [] then []
    else
      var n := |events| - 1;
      Touches(states[..n + 1], events[..n], key) + [SwapsKey(states[n], events[n], key)]
  }

  function Tallies(states: seq<State>, job: Job): (tallies: seq<Tally>)
    ensures |tallies| == |states|
    ensures forall i :: 0 <= i < |states| ==> tallies[i] == TallyOf(states[i].store, job)
  {
    if states == [] then [] else Tallies(states[..|states| - 1], job) + [TallyOf(states[|states| - 1].store, job)]
  }

  lemma SameContentRunStep(states: seq<State>, events: seq<Event>, n: nat, job: Job)
    requires IsRun(states, events) && n < |events| && SameContentAt(states[n], events[n], job)
    ensures OneVersionAtMost(TallyOf(states[n].store, job), TallyOf(states[n + 1].store, job),
              SwapsKey(states[n], events[n], job.key))
  {
    InvHolds(states, events, n);
    assert states[n + 1] == Next(states[n], events[n]);
    SameContentStep(states[n], events[n], job);
  }

  /** However many jobs with the same content interleave, with nothing else touching the key,
      they create one version between them if the content is new, and none if it is not. */
  lemma SameContentCreatesOneVersion(states: seq<State>, events: seq<Event>, m: nat, n: nat, job: Job)
    requires IsRun(states, events) && m <= n < |states| && OnlySameContent(states, events, m, n, job)
    ensures OneVersionAtMost(TallyOf(states[m].store, job), TallyOf(states[n].store, job),
              AnyOf(Touches(states, events, job.key), m, n))
  {
    var tallies, touched := Tallies(states, job), Touches(states, events, job.key);
    forall i | m <= i < n ensures OneVersionAtMost(tallies[i], tallies[i + 1], touched[i]) {
      SameContentRunStep(states, events, i, job);
    }
    OneVersionInAll(tallies, touched, m, n);
  }

  lemma SwapMakesCurrent(s: Store, job: Job, vectors: seq<Vector>)
    requires Inv(s) && |vectors| == |job.chunks|
    ensures Current(AfterSwap(s, job, vectors), job)
  {
    if SwapResult(s, job, vectors).Indexed? {
      SwapKeepsInv(s, job, vectors);
      var t := AfterSwap(s, job, vectors);
      OneActive(t.docs, job.key, |t.docs| - 1);
    }
  }
}

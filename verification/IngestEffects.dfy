/** What each swap and each removal does to the index, and what a removal does to a run. */
module IngestEffects {
  import opened Common
  import opened Ingest
  import opened IngestRuns

  // ------------------------------------------------------------------ documents and rows

  /** The first documents are as before, but an active version of the key has this status. */
  predicate DocsRetired(before: seq<Document>, after: seq<Document>, key: string, status: DocStatus) {
    |before| <= |after| && forall i :: 0 <= i < |before| ==>
      after[i] == if IsActive(before[i], key) then before[i].(status := status) else before[i]
  }

  /** The first rows are as before, but the key's are out of use. */
  predicate RowsRetired(before: seq<Row>, after: seq<Row>, key: string) {
    |before| <= |after| && forall i :: 0 <= i < |before| ==>
      after[i] == if before[i].key == key then before[i].(active := false) else before[i]
  }

  predicate NoneActive(docs: seq<Document>, key: string) {
    forall i :: 0 <= i < |docs| ==> !IsActive(docs[i], key)
  }

  lemma RetiredIs(docs: seq<Document>, key: string, status: DocStatus)
    requires Versioned(docs) && status != Active
    ensures |Retired(docs, key, status)| == |docs| && DocsRetired(docs, Retired(docs, key, status), key, status)
  {
    forall i | 0 <= i < |docs| && IsActive(docs[i], key) ensures ActiveIndex(docs, key) == Some(i) {
      OneActive(docs, key, i);
    }
  }

  lemma NoActiveIndex(docs: seq<Document>, key: string)
    ensures ActiveIndex(docs, key).None? <==> NoneActive(docs, key)
  {
    forall i | 0 <= i < |docs| && IsActive(docs[i], key) ensures ActiveIndex(docs, key).Some? {
      ActiveIsFound(docs, key, 0, i);
    }
  }

  /** Without an active version all rows of a key are out of use already. */
  lemma NothingToRetire(docs: seq<Document>, rows: seq<Row>, secret: bool, key: string)
    requires TableOk(docs, rows, secret) && NoneActive(docs, key)
    ensures RowsRetired(rows, rows, key)
  {
    forall i | 0 <= i < |rows| && rows[i].key == key ensures !rows[i].active {
      assert rows[i] in rows;
      assert !IsLive(docs, rows[i]) by {
        assert forall j :: 0 <= j < |docs| && docs[j].key == key ==> !IsActive(docs[j], key);
      }
    }
  }

  // ------------------------------------------------------------------ removal

  /** The key's active version has become deleted, its rows are out of use in both tables, and
      nothing else has changed. */
  predicate Withdrawn(s: Store, t: Store, key: string) {
    && |t.docs| == |s.docs| && |t.shared| == |s.shared| && |t.confidential| == |s.confidential|
    && DocsRetired(s.docs, t.docs, key, Deleted)
    && RowsRetired(s.shared, t.shared, key) && RowsRetired(s.confidential, t.confidential, key)
  }

  lemma DeactivateWithdraws(s: Store, key: string)
    requires Inv(s)
    ensures Withdrawn(s, AfterDeactivate(s, key), key)
  {
    NoActiveIndex(s.docs, key);
    if ActiveIndex(s.docs, key).Some? {
      RetiredIs(s.docs, key, Deleted);
    } else {
      NothingToRetire(s.docs, s.shared, false, key);
      NothingToRetire(s.docs, s.confidential, true, key);
    }
  }

  /** In every run a removal withdraws exactly its key's document. */
  lemma RemovalWithdraws(states: seq<State>, events: seq<Event>, m: nat)
    requires IsRun(states, events) && m < |events| && events[m].Remove?
    ensures Withdrawn(states[m].store, states[m + 1].store, events[m].key) && states[m + 1].jobs == states[m].jobs
  {
    InvHolds(states, events, m);
    assert states[m + 1] == Next(states[m], events[m]);
    DeactivateWithdraws(states[m].store, events[m].key);
  }

  lemma WithdrawnHasNone(s: Store, t: Store, key: string)
    requires Withdrawn(s, t, key)
    ensures NoneActive(t.docs, key)
  {
  }

  lemma OtherStepsActivateNothing(s: State, e: Event, key: string)
    requires Inv(s.store) && NoneActive(s.store.docs, key) && !SwapsKey(s, e, key)
    ensures NoneActive(Next(s, e).store.docs, key)
  {
    StepGrows(s, e);
    var docs, after := s.store.docs, Next(s, e).store.docs;
    forall i | 0 <= i < |after| ensures !IsActive(after[i], key) {
      if i < |docs| {
        assert Ages(docs[i], after[i]) && !IsActive(docs[i], key);
      } else {
        assert e.Finish? && s.jobs[e.id].Embedding? && after[i].key == s.jobs[e.id].job.key;
      }
    }
  }

  /** From m to n no job for the key is swapped in. */
  predicate NotSwapped(states: seq<State>, events: seq<Event>, m: nat, n: nat, key: string)
    requires n <= |events| && |events| <= |states|
  {
    forall i :: m <= i < n ==> !SwapsKey(states[i], events[i], key)
  }

  predicate StaysInactive(docs: seq<Document>, after: seq<Document>, key: string) {
    NoneActive(docs, key) ==> NoneActive(after, key)
  }

  lemma RunStepActivatesNothing(states: seq<State>, events: seq<Event>, n: nat, key: string)
    requires IsRun(states, events) && n < |events| && !SwapsKey(states[n], events[n], key)
    ensures StaysInactive(states[n].store.docs, states[n + 1].store.docs, key)
  {
    InvHolds(states, events, n);
    assert states[n + 1] == Next(states[n], events[n]);
    if NoneActive(states[n].store.docs, key) {
      OtherStepsActivateNothing(states[n], events[n], key);
    }
  }

  lemma {:induction false} InactiveThroughout(states: seq<State>, m: nat, n: nat, key: string)
    requires m <= n < |states| && NoneActive(states[m].store.docs, key)
    requires forall i :: m <= i < n ==> StaysInactive(states[i].store.docs, states[i + 1].store.docs, key)
    ensures NoneActive(states[n].store.docs, key)
    decreases n - m
  {
    if m < n {
      InactiveThroughout(states, m, n - 1, key);
      assert StaysInactive(states[n - 1].store.docs, states[n - 1 + 1].store.docs, key);
    }
  }

  lemma StaysWithdrawn(states: seq<State>, events: seq<Event>, m: nat, n: nat, key: string)
    requires IsRun(states, events) && m <= n < |states| && NotSwapped(states, events, m, n, key)
    requires NoneActive(states[m].store.docs, key)
    ensures NoneActive(states[n].store.docs, key)
  {
    forall i | m <= i < n ensures StaysInactive(states[i].store.docs, states[i + 1].store.docs, key) {
      RunStepActivatesNothing(states, events, i, key);
    }
    InactiveThroughout(states, m, n, key);
  }

  /** In every run, from a removal until a job for the key is swapped in, the key has no active
      version and retrieval finds nothing of it in either table. */
  lemma RemovedIsGone(states: seq<State>, events: seq<Event>, m: nat, n: nat)
    requires IsRun(states, events) && m < n < |states| && events[m].Remove?
    requires NotSwapped(states, events, m + 1, n, events[m].key)
    ensures var s, key := states[n].store, events[m].key;
      NoneActive(s.docs, key) && ActiveItems(s.shared, key) == [] && ActiveItems(s.confidential, key) == []
  {
    var key := events[m].key;
    RemovalWithdraws(states, events, m);
    WithdrawnHasNone(states[m].store, states[m + 1].store, key);
    StaysWithdrawn(states, events, m + 1, n, key);
    InvHolds(states, events, n);
    NoActiveIndex(states[n].store.docs, key);
    NoActiveItems(states[n].store.docs, states[n].store.shared, false, key);
    NoActiveItems(states[n].store.docs, states[n].store.confidential, true, key);
  }

  // ------------------------------------------------------------------ a swap

  /** An active version of the job's key has its digest and model. */
  predicate AlreadyIndexed(docs: seq<Document>, job: Job) {
    exists i :: 0 <= i < |docs| && IsActive(docs[i], job.key) && docs[i].digest == job.digest && docs[i].model == job.model
  }

  /** The version is one more than the highest there was, or the first. */
  predicate IsNextVersion(docs: seq<Document>, key: string, version: nat) {
    && (forall i :: 0 <= i < |docs| && docs[i].key == key ==> docs[i].version < version)
    && (version == 1 || exists i :: 0 <= i < |docs| && docs[i].key == key && docs[i].version == version - 1)
  }

  /** The job's version has been added; the one that was active is superseded, its rows are out of
      use, and nothing else has changed. */
  predicate Installed(s: Store, t: Store, job: Job, version: nat) {
    && |t.docs| == |s.docs| + 1
    && DocsRetired(s.docs, t.docs, job.key, Superseded)
    && t.docs[|s.docs|] == Document(job.key, version, job.digest, job.model, job.level, Active, |job.chunks|)
    && RowsRetired(s.shared, t.shared, job.key) && RowsRetired(s.confidential, t.confidential, job.key)
    && |t.shared| + |t.confidential| == |s.shared| + |s.confidential| + |job.chunks|
  }

  lemma CurrentIff(docs: seq<Document>, s: Store, job: Job)
    requires docs == s.docs && Versioned(docs)
    ensures Current(s, job) <==> AlreadyIndexed(docs, job)
  {
    forall i | 0 <= i < |docs| && IsActive(docs[i], job.key) ensures ActiveIndex(docs, job.key) == Some(i) {
      OneActive(docs, job.key, i);
    }
  }

  lemma LatestIsNext(docs: seq<Document>, key: string)
    ensures IsNextVersion(docs, key, Latest(docs, key) + 1)
  {
    forall i | 0 <= i < |docs| && docs[i].key == key ensures docs[i].version < Latest(docs, key) + 1 {
      LatestIsHighest(docs, key, |docs|, i);
    }
    if Latest(docs, key) > 0 {
      var i := LatestIsThere(docs, key, |docs|);
    }
  }

  lemma SwapInstalls(s: Store, job: Job, vectors: seq<Vector>)
    requires Inv(s) && SwapResult(s, job, vectors).Indexed?
    ensures var r := SwapResult(s, job, vectors);
      IsNextVersion(s.docs, job.key, r.version) && Installed(s, AfterSwap(s, job, vectors), job, r.version)
  {
    LatestIsNext(s.docs, job.key);
    RetiredIs(s.docs, job.key, Superseded);
  }

  /** A swap leaves content alone that is indexed as it is, rejects vectors that do not match the
      chunks, and otherwise installs the next version. */
  lemma SwapDecides(s: Store, job: Job, vectors: seq<Vector>)
    requires Inv(s)
    ensures var r, t := SwapResult(s, job, vectors), AfterSwap(s, job, vectors);
      && (r.Unchanged? <==> AlreadyIndexed(s.docs, job))
      && (r.Mismatch? <==> !AlreadyIndexed(s.docs, job) && |vectors| != |job.chunks|)
      && (!r.Indexed? ==> t == s)
      && (r.Indexed? ==> IsNextVersion(s.docs, job.key, r.version) && Installed(s, t, job, r.version))
      && (r.Unchanged? ==> exists i :: 0 <= i < |s.docs| && IsActive(s.docs[i], job.key) && s.docs[i].version == r.version)
  {
    CurrentIff(s.docs, s, job);
    if SwapResult(s, job, vectors).Indexed? {
      SwapInstalls(s, job, vectors);
    }
  }

  // ------------------------------------------------------------------ batches

  /** The two answer alike whatever fits a batch of 32. */
  ghost predicate AlikeOnBatches(a: Embedder, b: Embedder) {
    forall batch: seq<string> :: 1 <= |batch| <= 32 ==> a(batch) == b(batch)
  }

  /** Only batches of 1 to 32 texts are sent. */
  lemma {:induction false} BatchesAreSmall(texts: seq<string>, start: nat, a: Embedder, b: Embedder)
    requires start <= |texts| && AlikeOnBatches(a, b)
    ensures EmbedFrom(texts, start, a) == EmbedFrom(texts, start, b)
    decreases |texts| - start
  {
    if start < |texts| {
      var end := if start + EMBED_BATCH <= |texts| then start + EMBED_BATCH else |texts|;
      assert 1 <= |texts[start..end]| <= 32;
      BatchesAreSmall(texts, end, a, b);
    }
  }

  ghost predicate AlwaysAnswers(embed: Embedder) {
    forall batch: seq<string> :: embed(batch).Some?
  }

  /** Embedding fails only if a batch does. */
  lemma {:induction false} AnsweredIsEmbedded(texts: seq<string>, start: nat, embed: Embedder)
    requires start <= |texts| && AlwaysAnswers(embed)
    ensures EmbedFrom(texts, start, embed).Some?
    decreases |texts| - start
  {
    if start < |texts| {
      var end := if start + EMBED_BATCH <= |texts| then start + EMBED_BATCH else |texts|;
      AnsweredIsEmbedded(texts, end, embed);
    }
  }
}

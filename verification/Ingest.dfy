/**
  Versioned re-indexing of `knowledge/ingest.py`: an unlocked check, unlocked embedding, and a
  swap in one transaction, run by any number of jobs at once.
 */
module Ingest {
  import opened Common
  import opened Labels

  type Vector = seq<real>

  datatype DocStatus = Active | Superseded | Deleted

  /** One row of `documents`: a version of a document key. */
  datatype Document = Document(
    key: string, version: nat, digest: string, model: string, level: Label, status: DocStatus, chunkCount: nat)

  /** One row of a chunk table. */
  datatype Row = Row(key: string, version: nat, index: nat, text: string, vector: Vector, active: bool)

  /** The committed index: the documents, the shared chunks and the confidential chunks. */
  datatype Store = Store(docs: seq<Document>, shared: seq<Row>, confidential: seq<Row>)

  /** A chunk: its text, and the text to embed, which has the heading lines before it. */
  datatype Piece = Piece(content: string, embedText: string)

  /** A parsed and chunked file on its way into the index. */
  datatype Job = Job(key: string, digest: string, model: string, level: Label, chunks: seq<Piece>)

  datatype Result = Indexed(version: nat) | Unchanged(version: nat) | Mismatch

  // ------------------------------------------------------------------ specification

  predicate IsActive(d: Document, key: string) {
    d.key == key && d.status == Active
  }

  /** The first position from i on with an active version of a key. */
  function ActiveFrom(docs: seq<Document>, key: string, i: nat): (found: Option<nat>)
    requires i <= |docs|
    ensures found.Some? ==> i <= found.value < |docs| && IsActive(docs[found.value], key)
    decreases |docs| - i
  {
    if i == |docs| then None else if IsActive(docs[i], key) then Some(i) else ActiveFrom(docs, key, i + 1)
  }

  function ActiveIndex(docs: seq<Document>, key: string): (found: Option<nat>)
    ensures found.Some? ==> found.value < |docs| && IsActive(docs[found.value], key)
  {
    ActiveFrom(docs, key, 0)
  }

  lemma {:induction false} ActiveIsFound(docs: seq<Document>, key: string, i: nat, j: nat)
    requires i <= j < |docs| && IsActive(docs[j], key)
    ensures ActiveFrom(docs, key, i).Some?
    decreases j - i
  {
    if i < j && !IsActive(docs[i], key) {
      ActiveIsFound(docs, key, i + 1, j);
    }
  }

  /** The highest version of a key among the first n documents, 0 if there is none. */
  function LatestAmong(docs: seq<Document>, key: string, n: nat): nat
    requires n <= |docs|
  {
    if n == 0 then 0
    else
      var before, d := LatestAmong(docs, key, n - 1), docs[n - 1];
      if d.key == key && d.version > before then d.version else before
  }

  function Latest(docs: seq<Document>, key: string): nat {
    LatestAmong(docs, key, |docs|)
  }

  lemma {:induction false} LatestIsHighest(docs: seq<Document>, key: string, n: nat, i: nat)
    requires i < n <= |docs| && docs[i].key == key
    ensures docs[i].version <= LatestAmong(docs, key, n)
  {
    if i < n - 1 {
      LatestIsHighest(docs, key, n - 1, i);
    }
  }

  lemma {:induction false} LatestIsThere(docs: seq<Document>, key: string, n: nat) returns (i: nat)
    requires n <= |docs| && LatestAmong(docs, key, n) > 0
    ensures i < n && docs[i].key == key && docs[i].version == LatestAmong(docs, key, n)
  {
    if LatestAmong(docs, key, n) == LatestAmong(docs, key, n - 1) {
      i := LatestIsThere(docs, key, n - 1);
    } else {
      i := n - 1;
    }
  }

  predicate Current(s: Store, job: Job) {
    var i := ActiveIndex(s.docs, job.key);
    i.Some? && s.docs[i.value].digest == job.digest && s.docs[i.value].model == job.model
  }

  function Retired(docs: seq<Document>, key: string, status: DocStatus): seq<Document> {
    var i := ActiveIndex(docs, key);
    if i.Some? then docs[i.value := docs[i.value].(status := status)] else docs
  }

  function Silenced(row: Row, key: string): Row {
    if row.key == key then row.(active := false) else row
  }

  function Quiet(rows: seq<Row>, key: string): (quiet: seq<Row>)
    ensures |quiet| == |rows|
    ensures forall i :: 0 <= i < |rows| ==> quiet[i] == Silenced(rows[i], key)
  {
    if rows == [] then [] else Quiet(rows[..|rows| - 1], key) + [Silenced(rows[|rows| - 1], key)]
  }

  function NewRow(job: Job, version: nat, vectors: seq<Vector>, i: nat): Row
    requires |vectors| == |job.chunks| && i < |job.chunks|
  {
    Row(job.key, version, i, job.chunks[i].content, vectors[i], true)
  }

  /** The rows of the first n chunks. */
  function RowsUpTo(job: Job, version: nat, vectors: seq<Vector>, n: nat): (rows: seq<Row>)
    requires |vectors| == |job.chunks| && n <= |job.chunks|
    ensures |rows| == n
    ensures forall i :: 0 <= i < n ==> rows[i] == NewRow(job, version, vectors, i)
  {
    if n == 0 then [] else RowsUpTo(job, version, vectors, n - 1) + [NewRow(job, version, vectors, n - 1)]
  }

  function NewRows(job: Job, version: nat, vectors: seq<Vector>): (rows: seq<Row>)
    requires |vectors| == |job.chunks|
    ensures |rows| == |job.chunks|
    ensures forall i :: 0 <= i < |rows| ==> rows[i] == NewRow(job, version, vectors, i)
  {
    RowsUpTo(job, version, vectors, |job.chunks|)
  }

  function NewDocument(job: Job, version: nat): Document {
    Document(job.key, version, job.digest, job.model, job.level, Active, |job.chunks|)
  }

  /** The swap: unchanged content is left alone; otherwise the old version and all its chunks
      are retired and the new version and its chunks appear, in one step. */
  function SwapResult(s: Store, job: Job, vectors: seq<Vector>): Result {
    if Current(s, job) then Unchanged(s.docs[ActiveIndex(s.docs, job.key).value].version)
    else if |vectors| != |job.chunks| then Mismatch
    else Indexed(Latest(s.docs, job.key) + 1)
  }

  function AfterSwap(s: Store, job: Job, vectors: seq<Vector>): Store {
    if !SwapResult(s, job, vectors).Indexed? then s
    else
      var version := Latest(s.docs, job.key) + 1;
      var rows := NewRows(job, version, vectors);
      Store(Retired(s.docs, job.key, Superseded) + [NewDocument(job, version)],
            Quiet(s.shared, job.key) + (if job.level == Confidential then [] else rows),
            Quiet(s.confidential, job.key) + (if job.level == Confidential then rows else []))
  }

  function AfterDeactivate(s: Store, key: string): Store {
    if ActiveIndex(s.docs, key).None? then s
    else Store(Retired(s.docs, key, Deleted), Quiet(s.shared, key), Quiet(s.confidential, key))
  }

  // ------------------------------------------------------------------ embedding

  const EMBED_BATCH := 32

  /** A provider's answer to a batch; None is an error that ends the job. */
  type Embedder = seq<string> -> Option<seq<Vector>>

  function EmbedTexts(chunks: seq<Piece>): (texts: seq<string>)
    ensures |texts| == |chunks| && forall i :: 0 <= i < |chunks| ==> texts[i] == chunks[i].embedText
  {
    if chunks == [] then [] else EmbedTexts(chunks[..|chunks| - 1]) + [chunks[|chunks| - 1].embedText]
  }

  /** The vectors of the texts from `start` on, batch after batch. */
  function EmbedFrom(texts: seq<string>, start: nat, embed: Embedder): Option<seq<Vector>>
    requires start <= |texts|
    decreases |texts| - start
  {
    if start == |texts| then Some([])
    else
      var end := if start + EMBED_BATCH <= |texts| then start + EMBED_BATCH else |texts|;
      var answer := embed(texts[start..end]);
      if answer.None? then None
      else
        var rest := EmbedFrom(texts, end, embed);
        if rest.None? then None else Some(answer.value + rest.value)
  }

  /** Answers batches text by text with `one`. */
  ghost predicate Pointwise(embed: Embedder, one: string -> Vector) {
    forall batch: seq<string> :: embed(batch).Some? ==>
      |embed(batch).value| == |batch| && forall i :: 0 <= i < |batch| ==> embed(batch).value[i] == one(batch[i])
  }

  /** Batching is invisible: every text gets its own vector. */
  lemma {:induction false} VectorsLineUp(texts: seq<string>, start: nat, embed: Embedder, one: string -> Vector)
    requires start <= |texts| && Pointwise(embed, one)
    ensures var v := EmbedFrom(texts, start, embed);
      v.Some? ==> |v.value| == |texts| - start && forall i :: 0 <= i < |v.value| ==> v.value[i] == one(texts[start + i])
    decreases |texts| - start
  {
    if start < |texts| {
      var end := if start + EMBED_BATCH <= |texts| then start + EMBED_BATCH else |texts|;
      VectorsLineUp(texts, end, embed, one);
    }
  }

  // ------------------------------------------------------------------ the transactions

  class Index {
    var docs: seq<Document>
    var shared: seq<Row>
    var confidential: seq<Row>

    ghost function Committed(): Store
      reads this
    {
      Store(docs, shared, confidential)
    }

    constructor ()
      ensures Committed() == Store([], [], [])
    {
      docs, shared, confidential := [], [], [];
    }

    method FindActive(key: string) returns (found: Option<nat>)
      ensures found == ActiveIndex(docs, key)
    {
      for i := 0 to |docs|
        invariant ActiveIndex(docs, key) == ActiveFrom(docs, key, i)
      {
        if IsActive(docs[i], key) {
          return Some(i);
        }
      }
      found := None;
    }

    method LatestVersion(key: string) returns (version: nat)
      ensures version == Latest(docs, key)
    {
      version := 0;
      for i := 0 to |docs|
        invariant version == LatestAmong(docs, key, i)
      {
        if docs[i].key == key && docs[i].version > version {
          version := docs[i].version;
        }
      }
    }

    /** UPDATE ... SET is_active = false WHERE doc_key = key AND is_active. */
    static method Silence(rows: seq<Row>, key: string) returns (after: seq<Row>)
      ensures after == Quiet(rows, key)
    {
      after := rows;
      for i := 0 to |rows|
        invariant |after| == |rows|
        invariant forall j :: 0 <= j < i ==> after[j] == Silenced(rows[j], key)
        invariant forall j :: i <= j < |rows| ==> after[j] == rows[j]
      {
        if rows[i].key == key && rows[i].active {
          after := after[i := rows[i].(active := false)];
        }
      }
    }

    /** Is the content already indexed as it is?  The first transaction asks only this. */
    method Check(job: Job) returns (active: Option<nat>, same: bool)
      ensures active == ActiveIndex(docs, job.key)
      ensures same <==> Current(Committed(), job)
    {
      active := FindActive(job.key);
      same := active != None && docs[active.value].digest == job.digest && docs[active.value].model == job.model;
    }

    /** Between the transactions: embed the chunks' texts in batches. */
    method Embed(texts: seq<string>, embed: Embedder) returns (vectors: Option<seq<Vector>>)
      ensures vectors == EmbedFrom(texts, 0, embed)
    {
      var done: seq<Vector> := [];
      var start := 0;
      assert forall v: seq<Vector> :: done + v == v;
      while start < |texts|
        invariant 0 <= start <= |texts|
        invariant EmbedFrom(texts, 0, embed) ==
          (var rest := EmbedFrom(texts, start, embed); if rest.Some? then Some(done + rest.value) else None)
      {
        var end := if start + EMBED_BATCH <= |texts| then start + EMBED_BATCH else |texts|;
        var answer := embed(texts[start..end]);
        if answer == None {
          return None;
        }
        ghost var rest := EmbedFrom(texts, end, embed);
        assert rest.Some? ==> done + (answer.value + rest.value) == done + answer.value + rest.value;
        done := done + answer.value;
        start := end;
      }
      assert done + [] == done;
      vectors := Some(done);
    }

    /** Takes the active version of a key, if any, and all chunks of the key out of use. */
    method Retire(key: string, active: Option<nat>, status: DocStatus)
      requires active == ActiveIndex(docs, key)
      modifies this
      ensures docs == Retired(old(docs), key, status)
      ensures shared == Quiet(old(shared), key) && confidential == Quiet(old(confidential), key)
    {
      if active != None {
        docs := docs[active.value := docs[active.value].(status := status)];
      }
      shared := Silence(shared, key);
      confidential := Silence(confidential, key);
    }

    /** Retires the active version and adds the next one with its rows. */
    method Install(job: Job, active: Option<nat>, vectors: seq<Vector>) returns (version: nat)
      requires active == ActiveIndex(docs, job.key) && |vectors| == |job.chunks|
      modifies this
      ensures version == Latest(old(docs), job.key) + 1
      ensures docs == Retired(old(docs), job.key, Superseded) + [NewDocument(job, version)]
      ensures shared ==
        Quiet(old(shared), job.key) + (if job.level == Confidential then [] else NewRows(job, version, vectors))
      ensures confidential ==
        Quiet(old(confidential), job.key) + (if job.level == Confidential then NewRows(job, version, vectors) else [])
    {
      var latest := LatestVersion(job.key);
      version := latest + 1;
      var rows := NewRows(job, version, vectors);
      Retire(job.key, active, Superseded);
      docs := docs + [NewDocument(job, version)];
      if job.level == Confidential {
        confidential := confidential + rows;
      } else {
        shared := shared + rows;
      }
    }

    /** The second transaction, under the key's lock; a count mismatch rolls it back. */
    method Swap(job: Job, vectors: seq<Vector>) returns (result: Result)
      modifies this
      ensures Committed() == AfterSwap(old(Committed()), job, vectors)
      ensures result == SwapResult(old(Committed()), job, vectors)
    {
      var active, same := Check(job);
      if same {
        return Unchanged(docs[active.value].version);
      }
      if |vectors| != |job.chunks| {
        return Mismatch;
      }
      var version := Install(job, active, vectors);
      return Indexed(version);
    }

    method Deactivate(key: string) returns (done: bool)
      modifies this
      ensures Committed() == AfterDeactivate(old(Committed()), key)
      ensures done <==> ActiveIndex(old(docs), key).Some?
    {
      var active := FindActive(key);
      if active == None {
        return false;
      }
      Retire(key, active, Deleted);
      return true;
    }
  }
}

/**
  The hash-chained audit log of `policy/audit.py`: redaction, record hashes, append and
  chain verification.

  SHA-256 over canonical JSON is represented by the constructors of `Digest`.  The proofs use
  only two facts about them: distinct inputs give distinct digests, and no digest of a record
  equals the genesis value.
 */
module Audit {
  import opened Common

  datatype Json =
    | Null
    | Bool(flag: bool)
    | Num(number: int)
    | Str(text: string)
    | List(items: seq<Json>)
    | Obj(fields: map<string, Json>)

  datatype Decision = Allow | Deny | Await | Ran | Error

  /** Validated tool arguments; the VPN tool takes exactly one way to name the employee. */
  datatype Arguments = VpnArguments(subject: Subject, days: int) | OtherArguments(json: Json)

  datatype Subject = ById(id: string) | ByName(name: string)

  datatype EventKind = ToolCall | Approval

  /** Tool names: those in the registry, and anything else a model may propose. */
  datatype ToolName = SearchDocs | ServerStatus | CreateTicket | GetTicket | CreateVpn | UnknownTool(name: string)

  datatype Permission = ServerRead | TicketCreate | VpnCreate | VpnApprove | OtherPermission(name: string)

  /** The reasons written to the log; the source renders them as text. */
  datatype Reason =
    | NotAnAvailableTool
    | InvalidArguments(details: string)
    | Requires(permission: Permission)
    | AwaitingApprovalBy(holder: Option<Permission>)
    | HandlerSaid(complaint: Complaint)
    | NoSuchPendingAction
    | AlreadySettled(status: Status)
    | PastItsExpiry
    | ApproverLacks(missing: Option<Permission>)
    | SamePerson
    | ConfirmationMismatch
    | RequesterLostIt
    | ApprovedFor(approver: string, requester: string)
    | RejectedBecause(note: Option<string>)

  datatype Complaint =
    | NoEmployeeWithId(id: string) | NoEmployeeNamed(name: string) | SeveralEmployees(name: string) | Other(text: string)

  datatype Status = Waiting | Executed | Rejected | Expired | Failed

  datatype Digest =
    | Genesis
    | RecordDigest(prev: Digest, at: int, content: Entry)
    | ActionDigest(tool: ToolName, arguments: Arguments, requester: string)
    | Unrelated(hex: string)

  /** One audit entry.  Absent arguments and results are JSON null. */
  datatype Entry = Entry(
    requestId: string,
    actor: string,
    role: string,
    event: EventKind,
    decision: Decision,
    tool: Option<ToolName>,
    arguments: Json,
    reason: Option<Reason>,
    result: Json,
    actionId: Option<nat>,
    actionHash: Option<Digest>)

  datatype Row = Row(id: nat, at: int, entry: Entry, prevHash: Digest, hash: Digest)

  const REDACTED := "[REDACTED]"
  const MAX_TEXT := 500
  const ELLIPSIS := "\U{2026}"

  // ------------------------------------------------------------------ redaction

  const SENSITIVE_WORDS := {"password", "passwd", "secret", "token", "apikey", "authorization",
                            "credential", "credentials"}

  function Lower(s: string): (r: string) {
    seq(|s|, i requires 0 <= i < |s| => if 'A' <= s[i] <= 'Z' then s[i] - 'A' + 'a' else s[i])
  }

  /** Splits on runs of "_" and "-"; a run at either end leaves an empty word there. */
  function Words(s: string, current: string, inRun: bool): seq<string>
    decreases |s|
  {
    if s == [] then [current]
    else if s[0] == '_' || s[0] == '-' then
      (if inRun then Words(s[1..], current, true) else [current] + Words(s[1..], "", true))
    else Words(s[1..], current + [s[0]], false)
  }

  predicate IsSensitiveKey(key: string) {
    var words := Words(Lower(key), "", false);
    || (exists i :: 0 <= i < |words| && words[i] in SENSITIVE_WORDS)
    || (exists i :: 0 <= i < |words| - 1 && words[i] == "api" && words[i + 1] == "key")
  }

  function Redact(value: Json): (r: Json)
    decreases value
  {
    match value
    case Obj(fields) =>
      Obj(map k | k in fields :: if IsSensitiveKey(k) then Str(REDACTED) else Redact(fields[k]))
    case List(items) => List(seq(|items|, i requires 0 <= i < |items| => Redact(items[i])))
    case Str(text) => if |text| > MAX_TEXT then Str(text[..MAX_TEXT] + ELLIPSIS) else value
    case _ => value
  }

  /** A value that has been through redaction is left alone by it; a stored row therefore
      hashes to the same digest as the entry it was built from. */
  lemma {:induction false} RedactIsIdempotent(value: Json)
    ensures Redact(Redact(value)) == Redact(value)
    decreases value
  {
    match value
    case Obj(fields) =>
      forall k | k in fields ensures Redact(Redact(fields[k])) == Redact(fields[k]) {
        RedactIsIdempotent(fields[k]);
      }
    case List(items) =>
      forall i | 0 <= i < |items| ensures Redact(Redact(items[i])) == Redact(items[i]) {
        RedactIsIdempotent(items[i]);
      }
    case Str(text) =>
      if |text| > MAX_TEXT {
        assert (text[..MAX_TEXT] + ELLIPSIS)[..MAX_TEXT] == text[..MAX_TEXT];
      }
    case _ =>
  }

  // ------------------------------------------------------------------ the chain

  function RedactEntry(e: Entry): Entry {
    e.(arguments := Redact(e.arguments), result := Redact(e.result))
  }

  function RecordHash(prev: Digest, e: Entry, at: int): Digest {
    RecordDigest(prev, at, RedactEntry(e))
  }

  function Head(rows: seq<Row>): Digest {
    if rows == [] then Genesis else rows[|rows| - 1].hash
  }

  predicate Linked(rows: seq<Row>, i: nat)
    requires i < |rows|
  {
    && rows[i].prevHash == Head(rows[..i])
    && rows[i].hash == RecordHash(Head(rows[..i]), rows[i].entry, rows[i].at)
  }

  predicate Intact(rows: seq<Row>) {
    forall i :: 0 <= i < |rows| ==> Linked(rows, i)
  }

  /** What the chain protects of a row: its time and its entry after redaction. */
  function Canonical(r: Row): (int, Entry) {
    (r.at, RedactEntry(r.entry))
  }

  /** The two logs agree on everything the chain protects. */
  predicate SameContent(a: seq<Row>, b: seq<Row>) {
    |a| == |b| && forall i :: 0 <= i < |a| ==> Canonical(a[i]) == Canonical(b[i])
  }

  /** The row `append` writes after `rows`. */
  function NextRow(rows: seq<Row>, e: Entry, at: int, id: nat): Row {
    Row(id, at, RedactEntry(e), Head(rows), RecordHash(Head(rows), e, at))
  }

  /** The first row that does not continue the chain, or the length of an intact log. */
  function FirstBroken(rows: seq<Row>): (k: nat)
    ensures k <= |rows|
    ensures forall i :: 0 <= i < k ==> Linked(rows, i)
    ensures k < |rows| ==> !Linked(rows, k)
  {
    FirstBrokenFrom(rows, 0)
  }

  function FirstBrokenFrom(rows: seq<Row>, from: nat): (k: nat)
    requires from <= |rows|
    requires forall i :: 0 <= i < from ==> Linked(rows, i)
    ensures from <= k <= |rows|
    ensures forall i :: 0 <= i < k ==> Linked(rows, i)
    ensures k < |rows| ==> !Linked(rows, k)
    decreases |rows| - from
  {
    if from < |rows| && Linked(rows, from) then FirstBrokenFrom(rows, from + 1) else from
  }

  lemma AppendKeepsChain(rows: seq<Row>, e: Entry, at: int, id: nat)
    requires Intact(rows)
    ensures Intact(rows + [NextRow(rows, e, at, id)])
  {
    var longer := rows + [NextRow(rows, e, at, id)];
    RedactIsIdempotent(e.arguments);
    RedactIsIdempotent(e.result);
    forall i | 0 <= i < |longer| ensures Linked(longer, i) {
      assert longer[..i] == rows[..i];
      if i < |rows| {
        assert Linked(rows, i);
      } else {
        assert rows[..i] == rows;
      }
    }
  }

  /** Every row is the one `append` wrote after its predecessors. */
  predicate BuiltBy(rows: seq<Row>, writes: seq<(Entry, int)>) {
    |rows| == |writes| && forall i :: 0 <= i < |rows| ==> rows[i] == NextRow(rows[..i], writes[i].0, writes[i].1, i + 1)
  }

  lemma {:induction false} AppendedLogsVerify(rows: seq<Row>, writes: seq<(Entry, int)>)
    requires BuiltBy(rows, writes)
    ensures Intact(rows)
  {
    if rows != [] {
      var n := |rows| - 1;
      assert forall i :: 0 <= i < n ==> rows[..n][..i] == rows[..i];
      AppendedLogsVerify(rows[..n], writes[..n]);
      AppendKeepsChain(rows[..n], writes[n].0, writes[n].1, n + 1);
      assert rows == rows[..n] + [rows[n]];
    }
  }

  lemma PrefixOfIntact(rows: seq<Row>, k: nat)
    requires Intact(rows) && k <= |rows|
    ensures Intact(rows[..k])
  {
    forall i | 0 <= i < k ensures Linked(rows[..k], i) {
      assert rows[..k][..i] == rows[..i];
      assert Linked(rows, i);
    }
  }

  /** Two intact logs end in the same hash exactly when they agree on all protected content. */
  lemma {:induction false} HeadFixesContent(a: seq<Row>, b: seq<Row>)
    requires Intact(a) && Intact(b)
    ensures Head(a) == Head(b) <==> SameContent(a, b)
    decreases |a|
  {
    if a != [] {
      assert Linked(a, |a| - 1);
    }
    if b != [] {
      assert Linked(b, |b| - 1);
    }
    if a != [] && b != [] {
      var a', b' := a[..|a| - 1], b[..|b| - 1];
      PrefixOfIntact(a, |a| - 1);
      PrefixOfIntact(b, |b| - 1);
      HeadFixesContent(a', b');
      if SameContent(a', b') && Canonical(a[|a| - 1]) == Canonical(b[|b| - 1]) {
        forall i | 0 <= i < |a| ensures Canonical(a[i]) == Canonical(b[i]) {
          if i < |a'| {
            assert a'[i] == a[i] && b'[i] == b[i];
          }
        }
      }
      if SameContent(a, b) {
        assert forall i :: 0 <= i < |a'| ==> a'[i] == a[i] && b'[i] == b[i];
      }
    }
  }

  /** No two positions of an intact log share a hash, counting the genesis value. */
  lemma HeadsAreDistinct(rows: seq<Row>, i: nat, j: nat)
    requires Intact(rows) && i < j <= |rows|
    ensures Head(rows[..i]) != Head(rows[..j])
  {
    PrefixOfIntact(rows, i);
    PrefixOfIntact(rows, j);
    HeadFixesContent(rows[..i], rows[..j]);
  }

  /** Cutting the tail off goes unnoticed. */
  lemma TruncationIsInvisible(rows: seq<Row>, k: nat)
    requires Intact(rows) && k <= |rows|
    ensures FirstBroken(rows[..k]) == k
  {
    PrefixOfIntact(rows, k);
  }

  /** Rewriting the content of row i, leaving its two hashes alone, is reported at row i
      exactly when the change survives redaction; otherwise the log still verifies. */
  lemma EditIsReportedUnlessRedacted(rows: seq<Row>, i: nat, at: int, e: Entry)
    requires Intact(rows) && i < |rows|
    ensures var edited := rows[i := rows[i].(at := at, entry := e)];
      FirstBroken(edited) ==
        if (at, RedactEntry(e)) == Canonical(rows[i]) then |rows| else i
  {
    var edited := rows[i := rows[i].(at := at, entry := e)];
    forall j | 0 <= j < |rows|
      ensures Linked(edited, j) <==> (j != i || (at, RedactEntry(e)) == Canonical(rows[i]))
    {
      assert Linked(rows, j);
      assert Head(edited[..j]) == Head(rows[..j]) by {
        if j > 0 {
          assert edited[..j][j - 1].hash == rows[..j][j - 1].hash;
        }
      }
    }
    assert FirstBroken(edited) > i ==> Linked(edited, i);
  }

  /** Removing row i is reported at its successor, or goes unnoticed if it was the last. */
  lemma DeletionIsReportedAtSuccessor(rows: seq<Row>, i: nat)
    requires Intact(rows) && i < |rows|
    ensures FirstBroken(rows[..i] + rows[i + 1..]) == i
  {
    var cut := rows[..i] + rows[i + 1..];
    forall j | 0 <= j < i ensures Linked(cut, j) {
      assert cut[..j] == rows[..j];
      assert Linked(rows, j);
    }
    if i + 1 < |rows| {
      assert cut[..i] == rows[..i] && cut[i] == rows[i + 1];
      assert Linked(rows, i + 1);
      HeadsAreDistinct(rows, i, i + 1);
      assert !Linked(cut, i);
    }
  }

  /** Whatever is done to an intact log, if its last hash is kept then verification accepts
      the result only if nothing the chain protects has changed. */
  lemma TamperEvident(original: seq<Row>, tampered: seq<Row>)
    requires Intact(original) && Head(tampered) == Head(original)
    requires FirstBroken(tampered) == |tampered|
    ensures SameContent(original, tampered)
  {
    HeadFixesContent(original, tampered);
  }

  // ------------------------------------------------------------------ the operations

  datatype ChainStatus = ChainStatus(records: nat, intact: bool, brokenAt: Option<nat>, linkBroken: bool)

  /** `verify_chain`: the first broken row's id, and whether its link or its content is wrong. */
  method VerifyChain(rows: seq<Row>) returns (status: ChainStatus)
    ensures status.records == |rows|
    ensures status.intact <==> Intact(rows)
    ensures status.intact ==> status.brokenAt == None && !status.linkBroken
    ensures !status.intact ==>
      var k := FirstBroken(rows);
      k < |rows| && status.brokenAt == Some(rows[k].id)
      && (status.linkBroken <==> rows[k].prevHash != Head(rows[..k]))
  {
    var prev := Genesis;
    for k := 0 to |rows|
      invariant prev == Head(rows[..k])
      invariant forall i :: 0 <= i < k ==> Linked(rows, i)
    {
      var row := rows[k];
      if row.prevHash != prev {
        assert !Linked(rows, k);
        return ChainStatus(|rows|, false, Some(row.id), true);
      }
      if row.hash != RecordHash(prev, row.entry, row.at) {
        assert !Linked(rows, k);
        return ChainStatus(|rows|, false, Some(row.id), false);
      }
      prev := row.hash;
    }
    status := ChainStatus(|rows|, true, None, false);
  }
}

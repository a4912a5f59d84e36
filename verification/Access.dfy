/**
  Who may read which rows: the scope of `policy/access.py`, the filter of the retrieval SQL
  (`knowledge/retrieval.py`) and the row-level policies of the knowledge-index migration.
 */
module Access {
  import opened Labels

  type Department = string

  /** The document permissions; each names one department. */
  datatype DocPermission = DocsEngineering | DocsHr | DocsIt | DocsFinance | DocsAiPlatform

  datatype Permission = Docs(p: DocPermission) | ConfidentialOf(department: Department) | OtherPermission(name: string)

  function DepartmentOf(p: DocPermission): Department {
    match p
    case DocsEngineering => "engineering"
    case DocsHr => "hr"
    case DocsIt => "it_ops"
    case DocsFinance => "finance"
    case DocsAiPlatform => "ai_platform"
  }

  datatype AccessScope = AccessScope(internal: set<Department>, confidential: set<Department>)

  function ScopeFor(held: set<Permission>): AccessScope {
    var internal := set p | p in held && p.Docs? :: DepartmentOf(p.p);
    AccessScope(internal, set d | d in internal && ConfidentialOf(d) in held)
  }

  predicate CanRead(scope: AccessScope, department: Department, level: Label) {
    match level
    case Public => true
    case Internal => department in scope.internal
    case Confidential => department in scope.confidential
    case Unlisted(_) => false
  }

  /** What a principal may read: public documents; internal ones with the department's document
      permission; confidential ones with that and the department's confidential permission. */
  lemma ScopeGrantsExactly(held: set<Permission>, department: Department, level: Label)
    ensures CanRead(ScopeFor(held), department, level) <==>
      || level.Public?
      || (!level.Unlisted? && (exists p :: Docs(p) in held && DepartmentOf(p) == department)
            && (level.Confidential? ==> ConfidentialOf(department) in held))
  {
    var scope := ScopeFor(held);
    if p :| Docs(p) in held && DepartmentOf(p) == department {
      assert Docs(p).Docs?;
    }
    if department in scope.internal {
      var q :| q in held && q.Docs? && DepartmentOf(q.p) == department;
      assert Docs(q.p) in held;
    }
  }

  // ------------------------------------------------------------------ two layers

  datatype Table = Shared | Secret

  /** The CHECK constraint on a chunk table. */
  predicate TableAdmits(table: Table, level: Label) {
    match table
    case Shared => level.Public? || level.Internal?
    case Secret => level.Confidential?
  }

  /** The WHERE clause of the retrieval query; the confidential table is not queried without a
      confidential department. */
  predicate SqlSelects(table: Table, scope: AccessScope, department: Department, level: Label) {
    match table
    case Shared => level.Public? || department in scope.internal
    case Secret => scope.confidential != {} && department in scope.confidential
  }

  /** The read policy on a chunk table, with the session settings made from the scope. */
  predicate ChunkPolicy(table: Table, scope: AccessScope, department: Department, level: Label) {
    match table
    case Shared => level.Public? || department in scope.internal
    case Secret => department in scope.confidential
  }

  /** The read policy on the documents the query joins. */
  predicate DocumentPolicy(scope: AccessScope, department: Department, level: Label) {
    || level.Public?
    || (level.Internal? && department in scope.internal)
    || (level.Confidential? && department in scope.confidential)
  }

  predicate PolicySelects(table: Table, scope: AccessScope, department: Department, level: Label) {
    ChunkPolicy(table, scope, department, level) && DocumentPolicy(scope, department, level)
  }

  /** On every row a table's CHECK admits, the filter and the policies select the same rows: those
      the scope may read. */
  lemma LayersAgree(table: Table, scope: AccessScope, department: Department, level: Label)
    requires TableAdmits(table, level)
    ensures SqlSelects(table, scope, department, level) <==> CanRead(scope, department, level)
    ensures PolicySelects(table, scope, department, level) <==> CanRead(scope, department, level)
  {
  }

  ghost predicate FilterIsRight(table: Table, department: Department, level: Label) {
    forall held :: SqlSelects(table, ScopeFor(held), department, level) <==> CanRead(ScopeFor(held), department, level)
  }

  /** The CHECK constraint is what makes the filter right on its own: for a department with a
      document permission, it selects what each principal may read exactly for the classes the
      constraint admits. */
  lemma FilterNeedsTheCheck(table: Table, p: DocPermission, level: Label)
    ensures FilterIsRight(table, DepartmentOf(p), level) <==> TableAdmits(table, level)
  {
    var department := DepartmentOf(p);
    if TableAdmits(table, level) {
      forall held: set<Permission>
        ensures SqlSelects(table, ScopeFor(held), department, level) <==> CanRead(ScopeFor(held), department, level)
      {
        LayersAgree(table, ScopeFor(held), department, level);
      }
    } else {
      var reader := {Docs(p)};
      var both := {Docs(p), ConfidentialOf(department)};
      ScopeGrantsExactly(reader, department, Internal);
      ScopeGrantsExactly(reader, department, Confidential);
      ScopeGrantsExactly(both, department, Confidential);
      assert Docs(p) in reader && Docs(p) in both;
      var principal := if level.Unlisted? then both else reader;
      assert SqlSelects(table, ScopeFor(principal), department, level) != CanRead(ScopeFor(principal), department, level);
    }
  }
}

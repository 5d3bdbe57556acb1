/** The relational statements of the achievement repository.

    Every optional filter that is present adds one clause with a fresh
    placeholder and exactly one argument; LIMIT/OFFSET (or LIMIT alone) take the
    next indices. Each statement is given twice: a declarative function (the
    clauses of the present filters, numbered in order) and a method that
    assembles it the way the repository does, growing the text, the argument
    list and the argument counter step by step. The fixed SQL text is
    abbreviated; the filter and placeholder structure is exact. */
module AchievementQueries {
  import opened Wrappers
  import opened Identifiers
  import opened Records
  import opened Sql
  import opened Pagination

  /** The row query and the count query of one listing. */
  datatype ListStatements = ListStatements(rows: Statement, count: Statement)

  // ----- the filter clauses -----

  /** " AND status = $n", on the columns qualified by `prefix`. */
  function StatusFilter(prefix: string, status: string): Predicate {
    Predicate(" AND " + prefix + "status = ", TextArg(status))
  }

  function FromFilter(prefix: string, from: Arg): Predicate {
    Predicate(" AND " + prefix + "created_at >= ", from)
  }

  function ToFilter(prefix: string, to: Arg): Predicate {
    Predicate(" AND " + prefix + "created_at <= ", to)
  }

  function StudentFilter(studentId: Uuid): Predicate {
    Predicate(" AND ar.student_id = ", UuidArg(studentId))
  }

  /** The three clauses on one prefix are pairwise different texts. */
  lemma FilterClausesDiffer(prefix: string, a: Arg, b: Arg, c: Arg)
    ensures StatusFilter(prefix, "").clause != FromFilter(prefix, a).clause
    ensures StatusFilter(prefix, "").clause != ToFilter(prefix, b).clause
    ensures FromFilter(prefix, a).clause != ToFilter(prefix, c).clause
  {
    var n := |" AND " + prefix|;
    var s, f, t := StatusFilter(prefix, "").clause, FromFilter(prefix, a).clause, ToFilter(prefix, c).clause;
    assert |s| == n + 9 && |f| == n + 14;
    assert f[n + 11] == '>' && t[n + 11] == '<';
  }

  /** One filter block of a listing: when the filter is present its clause
      goes into both the row query and the count query with the next
      placeholder, and its argument is appended once. */
  method AddListFilter(ghost rowsHead: Sql, ghost countHead: Sql, ghost headArgs: seq<Arg>, ghost preds: seq<Predicate>, ghost first: nat,
                       rows: Sql, count: Sql, args: seq<Arg>, argCount: nat, p: Option<Predicate>)
    returns (rows': Sql, count': Sql, args': seq<Arg>, argCount': nat)
    requires rows == rowsHead + Numbered(preds, first) && count == countHead + Numbered(preds, first)
    requires args == headArgs + ArgsOf(preds) && argCount == first + |preds|
    ensures rows' == rowsHead + Numbered(Optional(preds, p), first) && count' == countHead + Numbered(Optional(preds, p), first)
    ensures args' == headArgs + ArgsOf(Optional(preds, p)) && argCount' == first + |Optional(preds, p)|
  {
    NumberedOptional(rowsHead, headArgs, preds, first, p);
    NumberedOptional(countHead, headArgs, preds, first, p);
    rows', count', args', argCount' := rows, count, args, argCount;
    if p.Some? {
      rows' := rows' + [Text(p.value.clause), Param(argCount')];
      count' := count' + [Text(p.value.clause), Param(argCount')];
      args' := args' + [p.value.arg];
      argCount' := argCount' + 1;
    }
  }

  /** One filter block of a single query. */
  method AddFilter(ghost head: Sql, ghost headArgs: seq<Arg>, ghost preds: seq<Predicate>, ghost first: nat,
                   query: Sql, args: seq<Arg>, argCount: nat, p: Option<Predicate>)
    returns (query': Sql, args': seq<Arg>, argCount': nat)
    requires query == head + Numbered(preds, first)
    requires args == headArgs + ArgsOf(preds) && argCount == first + |preds|
    ensures query' == head + Numbered(Optional(preds, p), first)
    ensures args' == headArgs + ArgsOf(Optional(preds, p)) && argCount' == first + |Optional(preds, p)|
  {
    NumberedOptional(head, headArgs, preds, first, p);
    query', args', argCount' := query, args, argCount;
    if p.Some? {
      query' := query' + [Text(p.value.clause), Param(argCount')];
      args' := args' + [p.value.arg];
      argCount' := argCount' + 1;
    }
  }

  // ===== GetAchievementsWithStudentInfo =====

  const StudentInfoSelect: Sql := [Text("SELECT ar.*, student columns FROM achievement_references ar JOIN students s JOIN users u WHERE ar.student_id = ANY("), Param(1), Text(")")]
  const StudentInfoCount: Sql := [Text("SELECT COUNT(*) FROM achievement_references ar WHERE ar.student_id = ANY("), Param(1), Text(")")]
  const NewestFirst: string := " ORDER BY ar.created_at DESC"

  function StudentInfoStep(status: string): Option<Predicate> {
    if status != "" then Some(StatusFilter("ar.", status)) else None
  }

  function StudentInfoPredicates(status: string): seq<Predicate> {
    Optional([], StudentInfoStep(status))
  }

  function StudentInfoStatements(ids: seq<Uuid>, status: string, page: int, limit: int): ListStatements {
    var preds := StudentInfoPredicates(status);
    ListStatements(
      Statement(StudentInfoSelect + Numbered(preds, 2) + LimitOffset(NewestFirst, 2 + |preds|),
                [UuidListArg(ids)] + ArgsOf(preds) + [IntArg(limit), IntArg(Offset(page, limit))]),
      Statement(StudentInfoCount + Numbered(preds, 2) + [], [UuidListArg(ids)] + ArgsOf(preds) + []))
  }

  /** Both statements of the advisee listing are well numbered, and the count
      is bound to the arguments of the rows minus the trailing limit and offset
      `(page-1)*limit`. */
  lemma StudentInfoStatementsAreWellNumbered(ids: seq<Uuid>, status: string, page: int, limit: int)
    ensures WellNumbered(StudentInfoStatements(ids, status, page, limit).rows)
    ensures WellNumbered(StudentInfoStatements(ids, status, page, limit).count)
    ensures var s := StudentInfoStatements(ids, status, page, limit);
            s.rows.args == s.count.args + [IntArg(limit), IntArg((page - 1) * limit)]
  {
    var preds := StudentInfoPredicates(status);
    var k := |preds|;
    var s := StudentInfoStatements(ids, status, page, limit);
    assert WellNumbered(s.rows) by {
      ParamsOfHead(StudentInfoSelect[0].text, ")");
      LimitOffsetParams(NewestFirst, 2 + k);
      ComposedWellNumbered(StudentInfoSelect, [UuidListArg(ids)], preds, LimitOffset(NewestFirst, 2 + k), [IntArg(limit), IntArg(Offset(page, limit))], 1, k, 2);
    }
    assert WellNumbered(s.count) by {
      ParamsOfHead(StudentInfoCount[0].text, ")");
      ComposedWellNumbered(StudentInfoCount, [UuidListArg(ids)], preds, [], [], 1, k, 0);
    }
  }

  /** Both statements carry the status clause exactly when a status is given. */
  lemma StudentInfoStatusClause(ids: seq<Uuid>, status: string, page: int, limit: int)
    ensures var s := StudentInfoStatements(ids, status, page, limit);
            (Text(" AND ar.status = ") in s.rows.sql && Text(" AND ar.status = ") in s.count.sql) <==> status != ""
  {
    if status != "" {
      StudentInfoStatusPresent(ids, status, page, limit);
    } else {
      StudentInfoStatusAbsent(ids, page, limit);
    }
  }

  lemma StudentInfoStatusPresent(ids: seq<Uuid>, status: string, page: int, limit: int)
    requires status != ""
    ensures var s := StudentInfoStatements(ids, status, page, limit);
            Text(" AND ar.status = ") == s.rows.sql[3] && Text(" AND ar.status = ") == s.count.sql[3]
  {
    var p := StatusFilter("ar.", status);
    StatusClauseText(status);
    assert StudentInfoPredicates(status) == [] + [p];
    NumberedSnoc([], p, 2);
    var n := Numbered(StudentInfoPredicates(status), 2);
    assert n == [Text(" AND ar.status = "), Param(2)];
    var s := StudentInfoStatements(ids, status, page, limit);
    assert s.rows.sql == StudentInfoSelect + n + LimitOffset(NewestFirst, 3);
    assert s.count.sql == StudentInfoCount + n + [];
  }

  lemma StatusClauseText(status: string)
    ensures StatusFilter("ar.", status).clause == " AND ar.status = "
  {
    assert " AND " + "ar." == " AND ar.";
  }

  lemma StudentInfoStatusAbsent(ids: seq<Uuid>, page: int, limit: int)
    ensures var s := StudentInfoStatements(ids, "", page, limit);
            s.count.sql == StudentInfoCount && Text(" AND ar.status = ") !in s.count.sql
  {
    assert StudentInfoPredicates("") == [];
    var c := StudentInfoStatements(ids, "", page, limit).count.sql;
    assert c == StudentInfoCount;
    assert |" AND ar.status = "| != |")"|;
  }

  /** The repository's assembly; `argCount` starts at 2 because $1 is the
      array of student ids. */
  method BuildStudentInfoStatements(ids: seq<Uuid>, status: string, page: int, limit: int) returns (s: ListStatements)
    ensures s == StudentInfoStatements(ids, status, page, limit)
  {
    var baseQuery := StudentInfoSelect;
    var countQuery := StudentInfoCount;
    var args := [UuidListArg(ids)];
    var argCount := 2;
    baseQuery, countQuery, args, argCount := AddListFilter(StudentInfoSelect, StudentInfoCount, [UuidListArg(ids)], [], 2, baseQuery, countQuery, args, argCount, StudentInfoStep(status));
    var counted := Statement(countQuery, args);
    baseQuery := baseQuery + LimitOffset(NewestFirst, argCount);
    var offset := (page - 1) * limit;
    args := args + [IntArg(limit), IntArg(offset)];
    s := ListStatements(Statement(baseQuery, args), counted);
  }

  // ===== GetAllAchievementsForAdmin =====

  const AdminSelect: Sql := [Text("SELECT ar.*, student columns FROM achievement_references ar JOIN students s JOIN users u WHERE 1=1")]
  const AdminCount: Sql := [Text("SELECT COUNT(*) FROM achievement_references ar JOIN students s WHERE 1=1")]

  function AdminStatusStep(f: AdminAchievementFilters): Option<Predicate> {
    if f.status != "" then Some(StatusFilter("ar.", f.status)) else None
  }

  function AdminStudentStep(f: AdminAchievementFilters): Option<Predicate> {
    if f.studentId.Some? then Some(StudentFilter(f.studentId.value)) else None
  }

  function AdminFromStep(f: AdminAchievementFilters): Option<Predicate> {
    if f.dateFrom.Some? then Some(FromFilter("ar.", TimeArg(f.dateFrom.value))) else None
  }

  function AdminToStep(f: AdminAchievementFilters): Option<Predicate> {
    if f.dateTo.Some? then Some(ToFilter("ar.", TimeArg(f.dateTo.value))) else None
  }

  /** The present admin filters in the order status, student, from, to. */
  function AdminPredicates(f: AdminAchievementFilters): seq<Predicate> {
    Optional(Optional(Optional(Optional([], AdminStatusStep(f)), AdminStudentStep(f)), AdminFromStep(f)), AdminToStep(f))
  }

  const SortableColumns: set<string> := {"ar.created_at", "ar.updated_at", "ar.status"}

  /** The admin listing sorts by a whitelisted column only. */
  function SortColumn(sortBy: string): (c: string)
    ensures c in SortableColumns
    ensures sortBy in {"created_at", "updated_at", "status"} ==> c == "ar." + sortBy
    ensures sortBy !in {"created_at", "updated_at", "status"} ==> c == "ar.created_at"
  {
    if sortBy == "updated_at" then "ar.updated_at"
    else if sortBy == "status" then "ar.status"
    else "ar.created_at"
  }

  /** Ascending only for exactly "asc"; everything else sorts descending. */
  function SortDirection(sortOrder: string): (d: string)
    ensures d in {"ASC", "DESC"}
    ensures d == "ASC" <==> sortOrder == "asc"
  {
    if sortOrder == "asc" then "ASC" else "DESC"
  }

  function AdminOrdering(f: AdminAchievementFilters): string {
    " ORDER BY " + SortColumn(f.sortBy) + " " + SortDirection(f.sortOrder)
  }

  function AdminStatements(f: AdminAchievementFilters, page: int, limit: int): ListStatements {
    var preds := AdminPredicates(f);
    ListStatements(
      Statement(AdminSelect + Numbered(preds, 1) + LimitOffset(AdminOrdering(f), 1 + |preds|),
                [] + ArgsOf(preds) + [IntArg(limit), IntArg(Offset(page, limit))]),
      Statement(AdminCount + Numbered(preds, 1) + [], [] + ArgsOf(preds) + []))
  }

  /** Each present filter contributes one clause and one argument; both
      statements are well numbered and the rows statement binds the limit and
      the offset last. */
  lemma AdminStatementsAreWellNumbered(f: AdminAchievementFilters, page: int, limit: int)
    ensures WellNumbered(AdminStatements(f, page, limit).rows)
    ensures WellNumbered(AdminStatements(f, page, limit).count)
    ensures var s := AdminStatements(f, page, limit);
            s.rows.args == s.count.args + [IntArg(limit), IntArg((page - 1) * limit)]
  {
    var preds := AdminPredicates(f);
    AdminRowsAreWellNumbered(preds, AdminOrdering(f), limit, Offset(page, limit));
    AdminCountIsWellNumbered(preds);
    PageArgs(ArgsOf(preds), IntArg(limit), IntArg(Offset(page, limit)));
  }

  lemma PageArgs(filterArgs: seq<Arg>, limit: Arg, offset: Arg)
    ensures [] + filterArgs + [limit, offset] == ([] + filterArgs + []) + [limit, offset]
  {
  }

  lemma AdminRowsAreWellNumbered(preds: seq<Predicate>, ordering: string, limit: int, offset: int)
    ensures WellNumbered(Statement(AdminSelect + Numbered(preds, 1) + LimitOffset(ordering, 1 + |preds|),
                                   [] + ArgsOf(preds) + [IntArg(limit), IntArg(offset)]))
  {
    var k := |preds|;
    ParamsOfText(AdminSelect[0].text);
    assert Params(AdminSelect) == Range(1, 1);
    var tail := LimitOffset(ordering, 1 + k);
    LimitOffsetParams(ordering, 1 + k);
    assert Params(tail) == Range(0 + 1 + k, 0 + 1 + k + 2);
    PageWellNumbered(AdminSelect, preds, tail, limit, offset);
  }

  /** A page query whose head has no parameters: the filters come first,
      then the limit and the offset. */
  lemma PageWellNumbered(head: Sql, preds: seq<Predicate>, tail: Sql, limit: int, offset: int)
    requires Params(head) == Range(1, 1)
    requires Params(tail) == Range(0 + 1 + |preds|, 0 + 1 + |preds| + 2)
    ensures WellNumbered(Statement(head + Numbered(preds, 1) + tail, [] + ArgsOf(preds) + [IntArg(limit), IntArg(offset)]))
  {
    ComposedWellNumbered(head, [], preds, tail, [IntArg(limit), IntArg(offset)], 0, |preds|, 2);
  }

  lemma AdminCountIsWellNumbered(preds: seq<Predicate>)
    ensures WellNumbered(Statement(AdminCount + Numbered(preds, 1) + [], [] + ArgsOf(preds) + []))
  {
    ParamsOfText(AdminCount[0].text);
    assert Params(AdminCount) == Range(1, 1);
    ComposedWellNumbered(AdminCount, [], preds, [], [], 0, |preds|, 0);
  }

  /** The sort column and direction the admin listing picks. */
  method ChooseOrdering(f: AdminAchievementFilters) returns (sortBy: string, sortOrder: string)
    ensures sortBy == SortColumn(f.sortBy) && sortOrder == SortDirection(f.sortOrder)
  {
    sortBy := "ar.created_at";
    if f.sortBy != "" {
      if f.sortBy == "created_at" {
        sortBy := "ar.created_at";
      } else if f.sortBy == "updated_at" {
        sortBy := "ar.updated_at";
      } else if f.sortBy == "status" {
        sortBy := "ar.status";
      }
    }
    sortOrder := "DESC";
    if f.sortOrder == "asc" {
      sortOrder := "ASC";
    }
  }

  /** Each present admin filter binds exactly one argument. */
  lemma AdminArgumentCount(f: AdminAchievementFilters, page: int, limit: int)
    ensures |AdminStatements(f, page, limit).count.args| ==
            (if f.status != "" then 1 else 0) + (if f.studentId.Some? then 1 else 0) +
            (if f.dateFrom.Some? then 1 else 0) + (if f.dateTo.Some? then 1 else 0)
  {
    var p1 := Optional([], AdminStatusStep(f));
    var p2 := Optional(p1, AdminStudentStep(f));
    var p3 := Optional(p2, AdminFromStep(f));
    assert |AdminPredicates(f)| == |p3| + (if f.dateTo.Some? then 1 else 0);
  }

  /** The four admin filter blocks, status, student, from and to, each
      appended to both queries with the next placeholder. */
  method AppendAdminFilters(f: AdminAchievementFilters) returns (baseQuery: Sql, countQuery: Sql, args: seq<Arg>, argCount: nat)
    ensures baseQuery == AdminSelect + Numbered(AdminPredicates(f), 1) && countQuery == AdminCount + Numbered(AdminPredicates(f), 1)
    ensures args == [] + ArgsOf(AdminPredicates(f)) && argCount == 1 + |AdminPredicates(f)|
  {
    baseQuery := AdminSelect;
    countQuery := AdminCount;
    args := [];
    argCount := 1;
    ghost var preds: seq<Predicate> := [];
    baseQuery, countQuery, args, argCount := AddListFilter(AdminSelect, AdminCount, [], preds, 1, baseQuery, countQuery, args, argCount, AdminStatusStep(f));
    preds := Optional(preds, AdminStatusStep(f));
    baseQuery, countQuery, args, argCount := AddListFilter(AdminSelect, AdminCount, [], preds, 1, baseQuery, countQuery, args, argCount, AdminStudentStep(f));
    preds := Optional(preds, AdminStudentStep(f));
    baseQuery, countQuery, args, argCount := AddListFilter(AdminSelect, AdminCount, [], preds, 1, baseQuery, countQuery, args, argCount, AdminFromStep(f));
    preds := Optional(preds, AdminFromStep(f));
    baseQuery, countQuery, args, argCount := AddListFilter(AdminSelect, AdminCount, [], preds, 1, baseQuery, countQuery, args, argCount, AdminToStep(f));
  }

  method BuildAdminStatements(f: AdminAchievementFilters, page: int, limit: int) returns (s: ListStatements)
    ensures s == AdminStatements(f, page, limit)
  {
    var baseQuery, countQuery, args, argCount := AppendAdminFilters(f);
    var counted := Statement(countQuery, args);
    var sortBy, sortOrder := ChooseOrdering(f);
    baseQuery := baseQuery + LimitOffset(" ORDER BY " + sortBy + " " + sortOrder, argCount);
    var offset := (page - 1) * limit;
    args := args + [IntArg(limit), IntArg(offset)];
    s := ListStatements(Statement(baseQuery, args), counted);
  }

  // ===== statistics =====

  function StatisticsStatusStep(f: StatisticsFilters, prefix: string, withStatus: bool): Option<Predicate> {
    if withStatus && f.status != "" then Some(StatusFilter(prefix, f.status)) else None
  }

  function StatisticsFromStep(f: StatisticsFilters, prefix: string): Option<Predicate> {
    if f.dateFrom.Some? then Some(FromFilter(prefix, TextArg(f.dateFrom.value))) else None
  }

  function StatisticsToStep(f: StatisticsFilters, prefix: string): Option<Predicate> {
    if f.dateTo.Some? then Some(ToFilter(prefix, TextArg(f.dateTo.value))) else None
  }

  /** The statistics filters: the status (where the query applies it) and the
      two dates, on the columns qualified by `prefix`. */
  function StatisticsPredicates(f: StatisticsFilters, prefix: string, withStatus: bool): seq<Predicate> {
    Optional(Optional(Optional([], StatisticsStatusStep(f, prefix, withStatus)), StatisticsFromStep(f, prefix)), StatisticsToStep(f, prefix))
  }

  /** The status clause is applied exactly when the query applies it and a
      status is given, with that status; each date clause exactly when that
      date is given, with that date. */
  lemma StatisticsPredicatesPresence(f: StatisticsFilters, prefix: string, withStatus: bool, status: string, date: string)
    ensures StatusFilter(prefix, status) in StatisticsPredicates(f, prefix, withStatus) <==>
            withStatus && f.status != "" && status == f.status
    ensures FromFilter(prefix, TextArg(date)) in StatisticsPredicates(f, prefix, withStatus) <==> f.dateFrom == Some(date)
    ensures ToFilter(prefix, TextArg(date)) in StatisticsPredicates(f, prefix, withStatus) <==> f.dateTo == Some(date)
  {
    var d := TextArg(date);
    FilterClausesDiffer(prefix, d, d, d);
    var a := if f.dateFrom.Some? then TextArg(f.dateFrom.value) else d;
    var b := if f.dateTo.Some? then TextArg(f.dateTo.value) else d;
    FilterClausesDiffer(prefix, a, b, b);
    FilterClausesDiffer(prefix, d, b, b);
    FilterClausesDiffer(prefix, a, d, d);
  }

  /** Every statistics statement opens with "... WHERE student_id = ANY($1)",
      then the numbered filters, then a fixed tail. */
  function StatisticsStatement(head: string, ids: seq<Uuid>, f: StatisticsFilters, prefix: string, withStatus: bool, tail: string): Statement {
    var preds := StatisticsPredicates(f, prefix, withStatus);
    Statement([Text(head), Param(1), Text(")")] + Numbered(preds, 2) + [Text(tail)],
              [UuidListArg(ids)] + ArgsOf(preds) + [])
  }

  const TotalHead: string := "SELECT COUNT(*) FROM achievement_references WHERE student_id = ANY("
  const DocumentIdsHead: string := "SELECT mongo_achievement_id FROM achievement_references WHERE student_id = ANY("
  const PeriodHead: string := "SELECT TO_CHAR(created_at, 'YYYY-MM') AS period, COUNT(*) FROM achievement_references WHERE student_id = ANY("
  const PeriodTail: string := " GROUP BY period ORDER BY period DESC"
  const TopStudentsHead: string := "SELECT ar.student_id, student columns, COUNT(*) FROM achievement_references ar JOIN students s JOIN users u WHERE ar.student_id = ANY("
  const TopStudentsTail: string := " GROUP BY ar.student_id, s.student_id, u.full_name, s.program_study ORDER BY count DESC LIMIT "
  const StatusHead: string := "SELECT status, COUNT(*) FROM achievement_references WHERE student_id = ANY("
  const StatusTail: string := " GROUP BY status ORDER BY count DESC"

  function TotalStatement(ids: seq<Uuid>, f: StatisticsFilters): Statement {
    StatisticsStatement(TotalHead, ids, f, "", true, "")
  }

  /** The reference query behind both document tallies (by type and by level). */
  function DocumentIdsStatement(ids: seq<Uuid>, f: StatisticsFilters): Statement {
    StatisticsStatement(DocumentIdsHead, ids, f, "", true, "")
  }

  function PeriodStatement(ids: seq<Uuid>, f: StatisticsFilters): Statement {
    StatisticsStatement(PeriodHead, ids, f, "", true, PeriodTail)
  }

  /** Only the dates filter the status distribution. */
  function StatusDistributionStatement(ids: seq<Uuid>, f: StatisticsFilters): Statement {
    StatisticsStatement(StatusHead, ids, f, "", false, StatusTail)
  }

  function TopStudentsStatement(ids: seq<Uuid>, f: StatisticsFilters, limit: int): Statement {
    var preds := StatisticsPredicates(f, "ar.", true);
    Statement([Text(TopStudentsHead), Param(1), Text(")")] + Numbered(preds, 2) + [Text(TopStudentsTail), Param(2 + |preds|)],
              [UuidListArg(ids)] + ArgsOf(preds) + [IntArg(limit)])
  }

  lemma StatisticsStatementIsWellNumbered(head: string, ids: seq<Uuid>, f: StatisticsFilters, prefix: string, withStatus: bool, tail: string)
    ensures WellNumbered(StatisticsStatement(head, ids, f, prefix, withStatus, tail))
  {
    var preds := StatisticsPredicates(f, prefix, withStatus);
    ParamsOfHead(head, ")");
    ParamsOfText(tail);
    ComposedWellNumbered([Text(head), Param(1), Text(")")], [UuidListArg(ids)], preds, [Text(tail)], [], 1, |preds|, 0);
  }

  /** The total, document-id, period and status-distribution statements are
      well numbered. */
  lemma StatisticsStatementsAreWellNumbered(ids: seq<Uuid>, f: StatisticsFilters)
    ensures WellNumbered(TotalStatement(ids, f))
    ensures WellNumbered(DocumentIdsStatement(ids, f))
    ensures WellNumbered(PeriodStatement(ids, f))
    ensures WellNumbered(StatusDistributionStatement(ids, f))
  {
    StatisticsStatementIsWellNumbered(TotalHead, ids, f, "", true, "");
    StatisticsStatementIsWellNumbered(DocumentIdsHead, ids, f, "", true, "");
    StatisticsStatementIsWellNumbered(PeriodHead, ids, f, "", true, PeriodTail);
    StatisticsStatementIsWellNumbered(StatusHead, ids, f, "", false, StatusTail);
  }

  /** The top-students statement binds its row limit after the filters. */
  lemma TopStudentsStatementIsWellNumbered(ids: seq<Uuid>, f: StatisticsFilters, limit: int)
    ensures WellNumbered(TopStudentsStatement(ids, f, limit))
  {
    var preds := StatisticsPredicates(f, "ar.", true);
    ParamsOfHead(TopStudentsHead, ")");
    ParamsOfTextParam(TopStudentsTail, 2 + |preds|);
    ComposedWellNumbered([Text(TopStudentsHead), Param(1), Text(")")], [UuidListArg(ids)], preds, [Text(TopStudentsTail), Param(2 + |preds|)], [IntArg(limit)], 1, |preds|, 1);
  }

  /** The status distribution is the same whatever status filter is given. */
  lemma StatusDistributionIgnoresStatus(ids: seq<Uuid>, f: StatisticsFilters, otherStatus: string)
    ensures StatusDistributionStatement(ids, f) == StatusDistributionStatement(ids, f.(status := otherStatus))
  {
    assert StatisticsStatusStep(f, "", false) == StatisticsStatusStep(f.(status := otherStatus), "", false);
  }

  /** The three optional statistics filters, appended the way each statistics
      query appends them after its "ANY($1)" head. */
  method AppendStatisticsFilters(ghost head: Sql, ids: seq<Uuid>, query: Sql, f: StatisticsFilters, prefix: string, withStatus: bool)
    returns (query': Sql, args: seq<Arg>, argCount: nat)
    requires query == head
    ensures query' == head + Numbered(StatisticsPredicates(f, prefix, withStatus), 2)
    ensures args == [UuidListArg(ids)] + ArgsOf(StatisticsPredicates(f, prefix, withStatus))
    ensures argCount == 2 + |StatisticsPredicates(f, prefix, withStatus)|
  {
    query', args, argCount := query, [UuidListArg(ids)], 2;
    ghost var preds: seq<Predicate> := [];
    query', args, argCount := AddFilter(head, [UuidListArg(ids)], preds, 2, query', args, argCount, StatisticsStatusStep(f, prefix, withStatus));
    preds := Optional(preds, StatisticsStatusStep(f, prefix, withStatus));
    query', args, argCount := AddFilter(head, [UuidListArg(ids)], preds, 2, query', args, argCount, StatisticsFromStep(f, prefix));
    preds := Optional(preds, StatisticsFromStep(f, prefix));
    query', args, argCount := AddFilter(head, [UuidListArg(ids)], preds, 2, query', args, argCount, StatisticsToStep(f, prefix));
    preds := Optional(preds, StatisticsToStep(f, prefix));
  }

  method BuildStatisticsStatement(head: string, ids: seq<Uuid>, f: StatisticsFilters, prefix: string, withStatus: bool, tail: string)
    returns (s: Statement)
    ensures s == StatisticsStatement(head, ids, f, prefix, withStatus, tail)
  {
    var query, args, argCount := AppendStatisticsFilters([Text(head), Param(1), Text(")")], ids, [Text(head), Param(1), Text(")")], f, prefix, withStatus);
    query := query + [Text(tail)];
    s := Statement(query, args);
  }

  method BuildTopStudentsStatement(ids: seq<Uuid>, f: StatisticsFilters, limit: int) returns (s: Statement)
    ensures s == TopStudentsStatement(ids, f, limit)
  {
    var query, args, argCount := AppendStatisticsFilters([Text(TopStudentsHead), Param(1), Text(")")], ids, [Text(TopStudentsHead), Param(1), Text(")")], f, "ar.", true);
    query := query + [Text(TopStudentsTail), Param(argCount)];
    args := args + [IntArg(limit)];
    s := Statement(query, args);
  }

  // ===== fixed statements =====

  const ExcludeDeleted: string := " AND ar.status != 'deleted'"
  const StudentRowsHead: string := "SELECT ar.*, student columns FROM achievement_references ar JOIN students s JOIN users u WHERE ar.student_id = "
  const StudentCountHead: string := "SELECT COUNT(*) FROM achievement_references ar WHERE ar.student_id = "
  const AdviseeIdsHead: string := "SELECT id FROM students WHERE advisor_id = "
  const StatusHistoryHead: string := "SELECT asl.*, u.full_name FROM achievement_status_logs asl LEFT JOIN users u WHERE asl.achievement_id = "
  const OldestFirst: string := " ORDER BY asl.created_at ASC"
  const AllStudentIds: string := "SELECT id FROM students"

  /** One student's listing; deleted references are excluded from both the
      count and the rows. */
  function StudentAchievementsStatements(studentId: Uuid, page: int, limit: int): ListStatements {
    ListStatements(
      Statement([Text(StudentRowsHead), Param(1)] + LimitOffset(ExcludeDeleted + NewestFirst, 2),
                [UuidArg(studentId), IntArg(limit), IntArg(Offset(page, limit))]),
      Statement([Text(StudentCountHead), Param(1), Text(ExcludeDeleted)], [UuidArg(studentId)]))
  }

  function AdviseeIdsStatement(advisorId: Uuid): Statement {
    Statement([Text(AdviseeIdsHead), Param(1)], [UuidArg(advisorId)])
  }

  function StatusHistoryStatement(achievementId: Uuid): Statement {
    Statement([Text(StatusHistoryHead), Param(1), Text(OldestFirst)], [UuidArg(achievementId)])
  }

  /** The statement behind the repository's list of every student id; its text
      is not part of this model. */
  function AllStudentIdsStatement(): Statement {
    Statement([Text(AllStudentIds)], [])
  }

  /** One student's row query is well numbered. */
  lemma StudentAchievementRowsAreWellNumbered(studentId: Uuid, page: int, limit: int)
    ensures WellNumbered(StudentAchievementsStatements(studentId, page, limit).rows)
  {
    var head := [Text(StudentRowsHead), Param(1)];
    var tail := LimitOffset(ExcludeDeleted + NewestFirst, 2);
    ParamsOfTextParam(StudentRowsHead, 1);
    LimitOffsetParams(ExcludeDeleted + NewestFirst, 2);
    ParamsAppend(head, tail);
    RangeConcat(1, 2, 4);
  }

  /** One student's count query is well numbered. */
  lemma StudentAchievementCountIsWellNumbered(studentId: Uuid, page: int, limit: int)
    ensures WellNumbered(StudentAchievementsStatements(studentId, page, limit).count)
  {
    ParamsOfHead(StudentCountHead, ExcludeDeleted);
  }

  lemma AdviseeIdsStatementIsWellNumbered(advisorId: Uuid)
    ensures WellNumbered(AdviseeIdsStatement(advisorId))
  {
    ParamsOfTextParam(AdviseeIdsHead, 1);
  }

  lemma StatusHistoryStatementIsWellNumbered(achievementId: Uuid)
    ensures WellNumbered(StatusHistoryStatement(achievementId))
  {
    ParamsOfHead(StatusHistoryHead, OldestFirst);
  }

  lemma AllStudentIdsStatementIsWellNumbered()
    ensures WellNumbered(AllStudentIdsStatement())
  {
    ParamsOfText(AllStudentIds);
  }
}

/** The user store: accounts, roles and the student and lecturer profiles.

    As in the achievement store, point lookups and writes act on maps, and the
    paginated reads are answered by the abstract table `db` from the exact
    statement. The one statement assembled step by step is the UPDATE of a
    user's own columns: only the columns the request sets appear in it, and
    each placeholder number is written as a single character. */
module UserRepository {
  import opened Wrappers
  import opened Identifiers
  import opened Records
  import opened Sql
  import opened Pagination
  import opened AchievementQueries
  import opened AchievementRepository

  /** The columns a user update may set; an empty text or a missing flag
      leaves its column as it is. */
  datatype UpdateUserRequest = UpdateUserRequest(email: string, fullName: string, isActive: Option<bool>)

  // ===== the UPDATE of a user =====

  /** One column of the SET clause, with the value bound to its placeholder. */
  datatype Assignment = Assignment(column: string, value: Arg)

  /** Where a column sits in the SET clause. */
  function Rank(column: string): nat {
    if column == "email" then 0 else if column == "full_name" then 1 else 2
  }

  /** The columns the request sets, in the order the clause lists them. */
  function Assignments(req: UpdateUserRequest): (a: seq<Assignment>)
    ensures |a| <= 3
  {
    (if req.email != "" then [Assignment("email", TextArg(req.email))] else []) +
    (if req.fullName != "" then [Assignment("full_name", TextArg(req.fullName))] else []) +
    (if req.isActive.Some? then [Assignment("is_active", BoolArg(req.isActive.value))] else [])
  }

  /** The SET clause has the e-mail exactly when one is given, the full name
      exactly when one is given and the active flag exactly when one is given,
      each with the given value and in that order. */
  lemma AssignmentsFollowTheRequest(req: UpdateUserRequest)
    ensures Assignment("email", TextArg(req.email)) in Assignments(req) <==> req.email != ""
    ensures Assignment("full_name", TextArg(req.fullName)) in Assignments(req) <==> req.fullName != ""
    ensures (exists b :: Assignment("is_active", BoolArg(b)) in Assignments(req)) <==> req.isActive.Some?
    ensures req.isActive.Some? ==> Assignment("is_active", BoolArg(req.isActive.value)) in Assignments(req)
    ensures forall i, j :: 0 <= i < j < |Assignments(req)| ==> Rank(Assignments(req)[i].column) < Rank(Assignments(req)[j].column)
  {
    var a := Assignments(req);
    if req.isActive.Some? {
      assert a[|a| - 1] == Assignment("is_active", BoolArg(req.isActive.value));
    }
  }

  function ValuesOf(a: seq<Assignment>): (values: seq<Arg>)
    ensures |values| == |a|
    ensures forall i :: 0 <= i < |a| ==> values[i] == a[i].value
  {
    seq(|a|, i requires 0 <= i < |a| => a[i].value)
  }

  /** "column = $n, " for each assignment, numbered from `first`. */
  function SetList(a: seq<Assignment>, first: nat): Sql
    decreases |a|
  {
    if a == [] then []
    else SetList(a[..|a| - 1], first) + [Text(a[|a| - 1].column + " = "), Param(first + |a| - 1), Text(", ")]
  }

  const UpdateHead: string := "UPDATE users SET "

  /** The closing "updated_at = $n WHERE id = $n+1". */
  function UpdateTail(n: nat): Sql {
    [Text("updated_at = "), Param(n), Text(" WHERE id = "), Param(n + 1)]
  }

  /** The UPDATE with the SET clause `a`: the assigned columns, then the
      update instant, then the user id. */
  function UpdateStatement(userId: Uuid, a: seq<Assignment>, now: Time): Statement {
    Statement([Text(UpdateHead)] + SetList(a, 1) + UpdateTail(|a| + 1), ValuesOf(a) + [TimeArg(now), UuidArg(userId)])
  }

  /** The statement that updates a user with the columns the request sets. */
  function UpdateUserStatement(userId: Uuid, req: UpdateUserRequest, now: Time): Statement {
    UpdateStatement(userId, Assignments(req), now)
  }

  lemma ParamsOfTriple(t: string, n: nat, u: string)
    ensures Params([Text(t), Param(n), Text(u)]) == [n]
  {
    var q := [Text(t), Param(n), Text(u)];
    assert q[..2] == [Text(t), Param(n)];
    ParamsOfTextParam(t, n);
  }

  /** k assignments take the consecutive placeholders first .. first+k-1. */
  lemma {:induction false} SetListParams(a: seq<Assignment>, first: nat)
    ensures Params(SetList(a, first)) == Range(first, first + |a|)
    decreases |a|
  {
    if a != [] {
      var init := a[..|a| - 1];
      var n := first + |a| - 1;
      var triple := [Text(a[|a| - 1].column + " = "), Param(n), Text(", ")];
      assert SetList(a, first) == SetList(init, first) + triple;
      SetListParams(init, first);
      ParamsAppend(SetList(init, first), triple);
      ParamsOfTriple(a[|a| - 1].column + " = ", n, ", ");
      assert Range(n, n + 1) == [n];
      RangeConcat(first, n, n + 1);
      assert Params(SetList(a, first)) == Range(first, n) + Range(n, n + 1);
    }
  }

  lemma UpdateTailParams(n: nat)
    ensures Params(UpdateTail(n)) == Range(n, n + 2)
  {
    var q := UpdateTail(n);
    assert q[..3] == [Text("updated_at = "), Param(n), Text(" WHERE id = ")];
    ParamsOfTriple("updated_at = ", n, " WHERE id = ");
    assert Range(n, n + 2) == [n, n + 1];
  }

  /** With k columns set, they take $1 .. $k, the update instant $(k+1) and
      the user id $(k+2); the arguments are the column values in clause
      order, then the instant, then the id. */
  lemma UpdateStatementIsWellNumbered(userId: Uuid, a: seq<Assignment>, now: Time)
    ensures WellNumbered(UpdateStatement(userId, a, now))
    ensures var s, k := UpdateStatement(userId, a, now), |a|;
            |s.args| == k + 2 && s.args[..k] == ValuesOf(a) &&
            s.args[k] == TimeArg(now) && s.args[k + 1] == UuidArg(userId) &&
            s.sql[|s.sql| - 3] == Param(k + 1) && s.sql[|s.sql| - 1] == Param(k + 2)
  {
    var k := |a|;
    var s := UpdateStatement(userId, a, now);
    ParamsOfText(UpdateHead);
    assert Params([Text(UpdateHead)]) == Range(1, 1);
    SetListParams(a, 1);
    UpdateTailParams(k + 1);
    ComposedParams([Text(UpdateHead)], SetList(a, 1), UpdateTail(k + 1), 1, 1 + k, 3 + k);
    assert s.args[..k] == ValuesOf(a);
  }

  /** A user update sets at most three columns, so its placeholders lie in
      1 .. 5. */
  lemma UpdateUserPlaceholdersBelowSix(userId: Uuid, req: UpdateUserRequest, now: Time)
    ensures WellNumbered(UpdateUserStatement(userId, req, now))
    ensures forall n :: n in Params(UpdateUserStatement(userId, req, now).sql) ==> 1 <= n <= 5
  {
    var a := Assignments(req);
    UpdateStatementIsWellNumbered(userId, a, now);
    var ps := Params(UpdateStatement(userId, a, now).sql);
    assert ps == Range(1, |a| + 3);
    forall n | n in ps
      ensures 1 <= n <= 5
    {
      var i :| 0 <= i < |ps| && ps[i] == n;
    }
  }

  // ----- the placeholder characters -----

  /** `string(rune(n + '0'))`: the single character n code points after '0';
      a value that is no character becomes the replacement character. */
  function RuneText(n: int): (s: string)
    ensures |s| == 1
  {
    var code := '0' as int + n;
    if 0 <= code < 0xD800 || 0xE000 <= code < 0x11_0000 then [code as char] else "\U{FFFD}"
  }

  /** Below ten the character is the decimal text of the number ... */
  lemma RuneTextIsDecimal(n: int)
    requires 0 <= n <= 9
    ensures RuneText(n) == Decimal(n)
  {
  }

  /** ... and from ten on it is not, so the encoding is right only because a
      user update has at most five placeholders. */
  lemma RuneTextIsNotDecimalFromTen(n: nat)
    requires n >= 10
    ensures RuneText(n) != Decimal(n)
  {
    assert Decimal(n) == Decimal(n / 10) + [Digit(n % 10)];
  }

  lemma RenderSnoc(q: Sql, f: Fragment)
    ensures Render(q + [f]) == Render(q) + (match f case Text(t) => t case Param(n) => "$" + Decimal(n))
  {
    assert (q + [f])[..|q + [f]| - 1] == q;
  }

  /** One more assignment adds "column = $n, " to the rendered text. */
  lemma RenderAssignment(head: Sql, a: seq<Assignment>, x: Assignment)
    ensures Render(head + SetList(a + [x], 1)) == Render(head + SetList(a, 1)) + x.column + " = $" + Decimal(|a| + 1) + ", "
  {
    var q := head + SetList(a, 1);
    var t := x.column + " = ";
    assert (a + [x])[..|a|] == a;
    assert head + SetList(a + [x], 1) == q + [Text(t)] + [Param(|a| + 1)] + [Text(", ")];
    RenderSnoc(q, Text(t));
    RenderSnoc(q + [Text(t)], Param(|a| + 1));
    RenderSnoc(q + [Text(t)] + [Param(|a| + 1)], Text(", "));
    assert Render(q) + t + ("$" + Decimal(|a| + 1)) == Render(q) + x.column + " = $" + Decimal(|a| + 1);
  }

  /** The closing text: "updated_at = $n WHERE id = $n+1". */
  lemma RenderTail(q: Sql, n: nat)
    ensures Render(q + UpdateTail(n)) == Render(q) + "updated_at = $" + Decimal(n) + " WHERE id = $" + Decimal(n + 1)
  {
    var t, w := "updated_at = ", " WHERE id = ";
    assert q + UpdateTail(n) == q + [Text(t)] + [Param(n)] + [Text(w)] + [Param(n + 1)];
    RenderSnoc(q, Text(t));
    RenderSnoc(q + [Text(t)], Param(n));
    RenderSnoc(q + [Text(t)] + [Param(n)], Text(w));
    RenderSnoc(q + [Text(t)] + [Param(n)] + [Text(w)], Param(n + 1));
    assert t + "$" == "updated_at = $";
    assert w + "$" == " WHERE id = $";
    var r, d, e := Render(q), Decimal(n), Decimal(n + 1);
    assert r + t + ("$" + d) + w + ("$" + e) == r + (t + "$") + d + (w + "$") + e;
  }

  /** The builder's state after the SET columns `done`: the text so far is
      their rendering, the arguments are their values and the counter is the
      next placeholder number. */
  predicate Built(query: string, args: seq<Arg>, argCount: int, done: seq<Assignment>) {
    query == Render([Text(UpdateHead)] + SetList(done, 1)) && args == ValuesOf(done) && argCount == |done| + 1
  }

  /** One optional column: when `present`, "column = $n, " and its value,
      with n written as the single character `rune(n + '0')`; otherwise
      nothing. */
  method AppendColumn(ghost done: seq<Assignment>, query: string, args: seq<Arg>, argCount: int, present: bool, x: Assignment)
    returns (query': string, args': seq<Arg>, argCount': int, ghost done': seq<Assignment>)
    requires Built(query, args, argCount, done) && |done| <= 8
    ensures done' == done + if present then [x] else []
    ensures Built(query', args', argCount', done')
  {
    if present {
      RenderAssignment([Text(UpdateHead)], done, x);
      RuneTextIsDecimal(argCount);
      query', args', argCount' := query + x.column + " = $" + RuneText(argCount) + ", ", args + [x.value], argCount + 1;
      done' := done + [x];
    } else {
      query', args', argCount', done' := query, args, argCount, done;
    }
  }

  /** The SET clause as the repository grows it: text, arguments and the
      running placeholder number. The text is the rendering of the update
      statement, so each single-character placeholder names the right
      argument. */
  method BuildUpdateUser(userId: Uuid, req: UpdateUserRequest, now: Time) returns (query: string, args: seq<Arg>)
    ensures query == Render(UpdateUserStatement(userId, req, now).sql)
    ensures args == UpdateUserStatement(userId, req, now).args
  {
    query := UpdateHead;
    args := [];
    var argCount := 1;
    BuiltAtStart();
    ghost var afterEmail, afterName, done;
    query, args, argCount, afterEmail := AppendColumn([], query, args, argCount, req.email != "", Assignment("email", TextArg(req.email)));
    query, args, argCount, afterName := AppendColumn(afterEmail, query, args, argCount, req.fullName != "", Assignment("full_name", TextArg(req.fullName)));
    query, args, argCount, done := AppendColumn(afterName, query, args, argCount, req.isActive.Some?, Assignment("is_active", BoolArg(if req.isActive.Some? then req.isActive.value else false)));
    SetColumnsAreTheAssignments(req, afterEmail, afterName, done);
    query, args := AppendTail(req, done, query, args, argCount, userId, now);
  }

  /** The columns the three optional steps append are the request's
      assignments. */
  lemma SetColumnsAreTheAssignments(req: UpdateUserRequest, afterEmail: seq<Assignment>, afterName: seq<Assignment>, done: seq<Assignment>)
    requires afterEmail == if req.email != "" then [Assignment("email", TextArg(req.email))] else []
    requires afterName == afterEmail + if req.fullName != "" then [Assignment("full_name", TextArg(req.fullName))] else []
    requires done == afterName + if req.isActive.Some? then [Assignment("is_active", BoolArg(req.isActive.value))] else []
    ensures done == Assignments(req)
  {
  }

  lemma BuiltAtStart()
    ensures Built(UpdateHead, [], 1, [])
  {
    RenderSnoc([], Text(UpdateHead));
    assert [] + [Text(UpdateHead)] == [Text(UpdateHead)];
  }

  /** The closing "updated_at = $n WHERE id = $n+1" after the SET columns
      completes the update statement. */
  method AppendTail(ghost req: UpdateUserRequest, ghost done: seq<Assignment>, query: string, args: seq<Arg>, argCount: int,
                    userId: Uuid, now: Time)
    returns (query': string, args': seq<Arg>)
    requires Built(query, args, argCount, done) && done == Assignments(req)
    ensures query' == Render(UpdateUserStatement(userId, req, now).sql)
    ensures args' == UpdateUserStatement(userId, req, now).args
  {
    RenderTail([Text(UpdateHead)] + SetList(done, 1), argCount);
    RuneTextIsDecimal(argCount);
    RuneTextIsDecimal(argCount + 1);
    query' := query + "updated_at = $" + RuneText(argCount) + " WHERE id = $" + RuneText(argCount + 1);
    args' := args + [TimeArg(now), UuidArg(userId)];
  }

  // ----- what the UPDATE does to the row -----

  /** One column of the SET clause applied to the row. */
  function Assign(u: User, x: Assignment): User {
    match x.value
    case TextArg(t) => if x.column == "email" then u.(email := t) else if x.column == "full_name" then u.(fullName := t) else u
    case BoolArg(b) => if x.column == "is_active" then u.(isActive := b) else u
    case _ => u
  }

  function AssignAll(u: User, a: seq<Assignment>): User
    decreases |a|
  {
    if a == [] then u else Assign(AssignAll(u, a[..|a| - 1]), a[|a| - 1])
  }

  /** The row after the update: the SET clause, then the update instant. */
  function Updated(u: User, req: UpdateUserRequest, now: Time): User {
    AssignAll(u, Assignments(req)).(updatedAt := now)
  }

  lemma {:induction false} AssignAllAppend(u: User, a: seq<Assignment>, b: seq<Assignment>)
    ensures AssignAll(u, a + b) == AssignAll(AssignAll(u, a), b)
    decreases |b|
  {
    if b == [] {
      assert a + b == a;
    } else {
      AssignAllAppend(u, a, b[..|b| - 1]);
      assert (a + b)[..|a + b| - 1] == a + b[..|b| - 1];
    }
  }

  lemma AssignOne(u: User, x: Assignment)
    ensures AssignAll(u, [x]) == Assign(u, x)
  {
    assert [x][..0] == [];
  }

  /** The update changes exactly the columns the request sets, plus the update
      instant; the id, user name, password hash, role and creation instant stay. */
  lemma UpdatedChangesOnlyTheGivenColumns(u: User, req: UpdateUserRequest, now: Time)
    ensures var v := Updated(u, req, now);
            v.email == (if req.email != "" then req.email else u.email) &&
            v.fullName == (if req.fullName != "" then req.fullName else u.fullName) &&
            v.isActive == (if req.isActive.Some? then req.isActive.value else u.isActive) &&
            v.updatedAt == now &&
            v.id == u.id && v.username == u.username && v.passwordHash == u.passwordHash &&
            v.roleId == u.roleId && v.createdAt == u.createdAt
  {
    UpdatedInSteps(u, req, now);
  }

  /** The SET columns with the arguments bound to their placeholders: the
      column at position i takes the argument of $(i+1). */
  function Bound(a: seq<Assignment>, args: seq<Arg>): (b: seq<Assignment>)
    requires |a| <= |args|
    ensures |b| == |a|
    ensures forall i :: 0 <= i < |a| ==> b[i] == Assignment(a[i].column, args[i])
  {
    seq(|a|, i requires 0 <= i < |a| => Assignment(a[i].column, args[i]))
  }

  /** What running the UPDATE with SET columns `a` and arguments `args` does
      to the row: each column takes its bound argument, then updated_at takes
      the argument after them. */
  function Executed(u: User, a: seq<Assignment>, args: seq<Arg>): User
    requires |args| == |a| + 2
  {
    var v := AssignAll(u, Bound(a, args));
    if args[|a|].TimeArg? then v.(updatedAt := args[|a|].at) else v
  }

  /** Running the statement BuildUpdateUser assembles gives the updated row. */
  lemma ExecutedIsUpdated(u: User, userId: Uuid, req: UpdateUserRequest, now: Time)
    ensures |UpdateUserStatement(userId, req, now).args| == |Assignments(req)| + 2
    ensures Executed(u, Assignments(req), UpdateUserStatement(userId, req, now).args) == Updated(u, req, now)
  {
    var a := Assignments(req);
    var args := UpdateUserStatement(userId, req, now).args;
    assert args[|a|] == TimeArg(now);
    assert Bound(a, args) == a;
  }

  /** The three optional pieces of the SET clause, and what each does to the row. */
  function EmailPart(req: UpdateUserRequest): seq<Assignment> {
    if req.email != "" then [Assignment("email", TextArg(req.email))] else []
  }

  function NamePart(req: UpdateUserRequest): seq<Assignment> {
    if req.fullName != "" then [Assignment("full_name", TextArg(req.fullName))] else []
  }

  function ActivePart(req: UpdateUserRequest): seq<Assignment> {
    if req.isActive.Some? then [Assignment("is_active", BoolArg(req.isActive.value))] else []
  }

  function SetEmail(u: User, req: UpdateUserRequest): User {
    if req.email != "" then u.(email := req.email) else u
  }

  function SetFullName(u: User, req: UpdateUserRequest): User {
    if req.fullName != "" then u.(fullName := req.fullName) else u
  }

  function SetActive(u: User, req: UpdateUserRequest): User {
    if req.isActive.Some? then u.(isActive := req.isActive.value) else u
  }

  /** The SET clause applied piece by piece. */
  lemma UpdatedInSteps(u: User, req: UpdateUserRequest, now: Time)
    ensures Updated(u, req, now) == SetActive(SetFullName(SetEmail(u, req), req), req).(updatedAt := now)
  {
    var e, f, g := EmailPart(req), NamePart(req), ActivePart(req);
    assert Assignments(req) == [] + e + f + g;
    EmailStep(u, req);
    NameStep(u, req, [] + e);
    ActiveStep(u, req, [] + e + f);
  }

  lemma EmailStep(u: User, req: UpdateUserRequest)
    ensures AssignAll(u, [] + EmailPart(req)) == SetEmail(u, req)
  {
    assert AssignAll(u, []) == u;
    AssignOptional(u, [], Assignment("email", TextArg(req.email)), req.email != "");
    AssignColumns(u, req.email, true);
  }

  lemma NameStep(u: User, req: UpdateUserRequest, done: seq<Assignment>)
    ensures AssignAll(u, done + NamePart(req)) == SetFullName(AssignAll(u, done), req)
  {
    AssignOptional(u, done, Assignment("full_name", TextArg(req.fullName)), req.fullName != "");
    AssignColumns(AssignAll(u, done), req.fullName, true);
  }

  lemma ActiveStep(u: User, req: UpdateUserRequest, done: seq<Assignment>)
    ensures AssignAll(u, done + ActivePart(req)) == SetActive(AssignAll(u, done), req)
  {
    var b := if req.isActive.Some? then req.isActive.value else false;
    AssignOptional(u, done, Assignment("is_active", BoolArg(b)), req.isActive.Some?);
    AssignColumns(AssignAll(u, done), "", b);
  }

  /** What each column of the SET clause writes. */
  lemma AssignColumns(u: User, t: string, b: bool)
    ensures Assign(u, Assignment("email", TextArg(t))) == u.(email := t)
    ensures Assign(u, Assignment("full_name", TextArg(t))) == u.(fullName := t)
    ensures Assign(u, Assignment("is_active", BoolArg(b))) == u.(isActive := b)
  {
    assert |"full_name"| != |"email"|;
  }

  /** One optional column of the SET clause, applied after the ones before it. */
  lemma AssignOptional(u: User, done: seq<Assignment>, x: Assignment, present: bool)
    ensures AssignAll(u, done + if present then [x] else []) ==
            if present then Assign(AssignAll(u, done), x) else AssignAll(u, done)
  {
    if present {
      AssignAllAppend(u, done, [x]);
      AssignOne(AssignAll(u, done), x);
    } else {
      assert done + [] == done;
    }
  }

  // ===== the paginated reads =====

  /** A listing over a whole table: the row query takes only "LIMIT $1
      OFFSET $2", the count query no argument. */
  function WholeTable(rowsText: string, countText: string, page: int, limit: int): ListStatements {
    ListStatements(Statement(LimitOffset(rowsText, 1), [IntArg(limit), IntArg(Offset(page, limit))]),
                   Statement([Text(countText)], []))
  }

  const UsersRows: string := "SELECT u.*, r.name FROM users u JOIN roles r ON u.role_id = r.id ORDER BY u.created_at DESC"
  const UsersCount: string := "SELECT COUNT(*) FROM users"
  const ActiveStudentsRows: string :=
    "SELECT s.*, u.username, u.full_name, u.email, advisor name FROM students s JOIN users u LEFT JOIN lecturers l " +
    "LEFT JOIN users l_user WHERE u.is_active = true ORDER BY s.created_at DESC"
  const ActiveStudentsCount: string := "SELECT COUNT(*) FROM students s JOIN users u ON s.user_id = u.id WHERE u.is_active = true"
  const ActiveLecturersRows: string :=
    "SELECT l.*, u.username, u.full_name, u.email FROM lecturers l JOIN users u WHERE u.is_active = true ORDER BY l.created_at DESC"
  const ActiveLecturersCount: string := "SELECT COUNT(*) FROM lecturers l JOIN users u ON l.user_id = u.id WHERE u.is_active = true"
  const AdviseeRowsHead: string :=
    "SELECT s.*, u.username, u.full_name, u.email, advisor name FROM students s JOIN users u LEFT JOIN lecturers l " +
    "LEFT JOIN users l_user WHERE s.advisor_id = "
  const AdviseeCountHead: string := "SELECT COUNT(*) FROM students s JOIN users u ON s.user_id = u.id WHERE s.advisor_id = "
  const ActiveOnly: string := " AND u.is_active = true"

  function UsersStatements(page: int, limit: int): ListStatements {
    WholeTable(UsersRows, UsersCount, page, limit)
  }

  function StudentsStatements(page: int, limit: int): ListStatements {
    WholeTable(ActiveStudentsRows, ActiveStudentsCount, page, limit)
  }

  function LecturersStatements(page: int, limit: int): ListStatements {
    WholeTable(ActiveLecturersRows, ActiveLecturersCount, page, limit)
  }

  /** The active students one lecturer advises. */
  function AdviseesStatements(advisorId: Uuid, page: int, limit: int): ListStatements {
    ListStatements(
      Statement([Text(AdviseeRowsHead), Param(1)] + LimitOffset(ActiveOnly + " ORDER BY s.created_at DESC", 2),
                [UuidArg(advisorId), IntArg(limit), IntArg(Offset(page, limit))]),
      Statement([Text(AdviseeCountHead), Param(1), Text(ActiveOnly)], [UuidArg(advisorId)]))
  }

  /** Both statements of a whole-table listing are well numbered, and the row
      query binds the limit and the offset `(page-1)*limit`. */
  lemma WholeTableIsWellNumbered(rowsText: string, countText: string, page: int, limit: int)
    ensures var s := WholeTable(rowsText, countText, page, limit);
            WellNumbered(s.rows) && WellNumbered(s.count) &&
            s.rows.args == [IntArg(limit), IntArg((page - 1) * limit)]
  {
    LimitOffsetParams(rowsText, 1);
    ParamsOfText(countText);
  }

  /** Both statements of the advisee listing are well numbered, and the row
      query binds the advisor id, the limit and the offset `(page-1)*limit`. */
  lemma AdviseesStatementsAreWellNumbered(advisorId: Uuid, page: int, limit: int)
    ensures var s := AdviseesStatements(advisorId, page, limit);
            WellNumbered(s.rows) && WellNumbered(s.count) &&
            s.rows.args == s.count.args + [IntArg(limit), IntArg((page - 1) * limit)]
  {
    var head := [Text(AdviseeRowsHead), Param(1)];
    var tail := LimitOffset(ActiveOnly + " ORDER BY s.created_at DESC", 2);
    ParamsOfTextParam(AdviseeRowsHead, 1);
    LimitOffsetParams(ActiveOnly + " ORDER BY s.created_at DESC", 2);
    ParamsAppend(head, tail);
    RangeConcat(1, 2, 4);
    ParamsOfHead(AdviseeCountHead, ActiveOnly);
  }

  function AsAccount(r: Row): Option<Account> {
    if r.UserRow? then Some(Account(r.user, r.roleName)) else None
  }

  function AsStudentWithUser(r: Row): Option<StudentWithUser> {
    if r.StudentRow? then Some(r.student) else None
  }

  function AsLecturerWithUser(r: Row): Option<LecturerWithUser> {
    if r.LecturerRow? then Some(r.lecturer) else None
  }

  function UsersOf(accounts: seq<Account>): (users: seq<User>)
    ensures |users| == |accounts| && forall i :: 0 <= i < |accounts| ==> users[i] == accounts[i].user
  {
    seq(|accounts|, i requires 0 <= i < |accounts| => accounts[i].user)
  }

  function RoleNamesOf(accounts: seq<Account>): (names: seq<string>)
    ensures |names| == |accounts| && forall i :: 0 <= i < |accounts| ==> names[i] == accounts[i].roleName
  {
    seq(|accounts|, i requires 0 <= i < |accounts| => accounts[i].roleName)
  }

  /** Rows that all scan as users give back those users and role names. */
  lemma ScanAllSucceeds(rows: seq<Row>, users: seq<User>, roleNames: seq<string>)
    requires |users| == |roleNames| == |rows|
    requires forall j :: 0 <= j < |rows| ==> rows[j] == UserRow(users[j], roleNames[j])
    ensures ScanAll(rows, AsAccount).Ok?
    ensures var items := ScanAll(rows, AsAccount).value;
            UsersOf(items) == users && RoleNamesOf(items) == roleNames
  {
    assert forall j :: 0 <= j < |rows| ==> AsAccount(rows[j]) == Some(Account(users[j], roleNames[j]));
    var items := ScanAll(rows, AsAccount).value;
    assert UsersOf(items) == users;
    assert RoleNamesOf(items) == roleNames;
  }

  /** A page of users as the repository returns it: the users and, at the same
      positions, the names of their roles. */
  datatype UserPage = UserPage(users: seq<User>, roleNames: seq<string>, total: nat)

  // ===== the store =====

  /** The store writes, for naming the ones that fail. */
  datatype UserCall =
    | CheckUsername
    | CheckEmail
    | InsertUser
    | UpdateUserRow
    | UpdateRole
    | DeactivateUser
    | InsertStudentProfile
    | InsertLecturerProfile
    | UpdateAdvisor

  /** Everything the user store writes. */
  datatype UserSnapshot = UserSnapshot(users: map<Uuid, User>, students: map<Uuid, Student>, lecturers: map<Uuid, Lecturer>)

  class UserStore {
    var users: map<Uuid, User>
    var students: map<Uuid, Student>
    var lecturers: map<Uuid, Lecturer>
    const roles: map<Uuid, Role>
    const db: map<Statement, Answer>
    const failing: set<UserCall>

    constructor (users: map<Uuid, User>, students: map<Uuid, Student>, lecturers: map<Uuid, Lecturer>,
                 roles: map<Uuid, Role>, db: map<Statement, Answer>, failing: set<UserCall>)
      ensures this.users == users && this.students == students && this.lecturers == lecturers
      ensures this.roles == roles && this.db == db && this.failing == failing
    {
      this.users := users;
      this.students := students;
      this.lecturers := lecturers;
      this.roles := roles;
      this.db := db;
      this.failing := failing;
    }

    function State(): UserSnapshot
      reads this
    {
      UserSnapshot(users, students, lecturers)
    }

    // ----- point lookups -----

    /** The user joined with its role: a user whose role is missing is not found. */
    function GetUserByID(userId: Uuid): (r: Option<Account>)
      reads this
      ensures r.Some? <==> userId in users && users[userId].roleId in roles
      ensures r.Some? ==> r.value == Account(users[userId], roles[users[userId].roleId].name)
    {
      if userId in users && users[userId].roleId in roles then Some(Account(users[userId], roles[users[userId].roleId].name)) else None
    }

    function CheckUsernameExists(username: string): (r: Result<bool>)
      reads this
      ensures r.Err? <==> CheckUsername in failing
      ensures r.Ok? ==> (r.value <==> exists id :: id in users && users[id].username == username)
    {
      if CheckUsername in failing then Err(QueryError) else Ok(exists id | id in users :: users[id].username == username)
    }

    function CheckEmailExists(email: string): (r: Result<bool>)
      reads this
      ensures r.Err? <==> CheckEmail in failing
      ensures r.Ok? ==> (r.value <==> exists id :: id in users && users[id].email == email)
    {
      if CheckEmail in failing then Err(QueryError) else Ok(exists id | id in users :: users[id].email == email)
    }

    function GetRoleByID(roleId: Uuid): (r: Option<Role>)
      ensures r.Some? <==> roleId in roles
      ensures r.Some? ==> r.value == roles[roleId]
    {
      if roleId in roles then Some(roles[roleId]) else None
    }

    /** The advisor's full name, or "" when the advisor or its account is missing. */
    function AdvisorName(advisorId: Uuid): (name: string)
      reads this
      ensures advisorId in lecturers && lecturers[advisorId].userId in users ==>
                name == users[lecturers[advisorId].userId].fullName
      ensures !(advisorId in lecturers && lecturers[advisorId].userId in users) ==> name == ""
    {
      if advisorId in lecturers && lecturers[advisorId].userId in users then users[lecturers[advisorId].userId].fullName else ""
    }

    /** A student with its account's details; a student whose account is
        missing or inactive is not found. */
    function GetStudentWithUserByID(studentId: Uuid): (r: Option<StudentWithUser>)
      reads this
      ensures r.Some? <==> studentId in students && students[studentId].userId in users && users[students[studentId].userId].isActive
      ensures r.Some? ==> r.value.student == students[studentId]
      ensures r.Some? ==> var u := users[students[studentId].userId];
                          r.value.username == u.username && r.value.fullName == u.fullName && r.value.email == u.email &&
                          r.value.advisorName == AdvisorName(students[studentId].advisorId)
    {
      if studentId in students && students[studentId].userId in users && users[students[studentId].userId].isActive then
        var s := students[studentId];
        var u := users[s.userId];
        Some(StudentWithUser(s, u.username, u.fullName, u.email, AdvisorName(s.advisorId)))
      else None
    }

    function GetStudentByID(studentId: Uuid): (r: Option<Student>)
      reads this
      ensures r.Some? <==> studentId in students
      ensures r.Some? ==> r.value == students[studentId]
    {
      if studentId in students then Some(students[studentId]) else None
    }

    function GetLecturerByID(lecturerId: Uuid): (r: Option<Lecturer>)
      reads this
      ensures r.Some? <==> lecturerId in lecturers
      ensures r.Some? ==> r.value == lecturers[lecturerId]
    {
      if lecturerId in lecturers then Some(lecturers[lecturerId]) else None
    }

    // ----- writes -----

    method CreateUser(u: User) returns (r: Result<()>)
      modifies this
      ensures InsertUser in failing || u.id in old(users) ==> r.Err? && State() == old(State())
      ensures !(InsertUser in failing || u.id in old(users)) ==> r == Ok(()) && State() == old(State()).(users := old(users)[u.id := u])
    {
      if InsertUser in failing {
        return Err(WriteError);
      }
      if u.id in users {
        return Err(DuplicateKey);
      }
      users := users[u.id := u];
      r := Ok(());
    }

    /** Runs the UPDATE that BuildUpdateUser assembles: the row takes the
        bound arguments (see ExecutedIsUpdated); an UPDATE that matches no
        row changes nothing and is not an error. */
    method UpdateUser(userId: Uuid, req: UpdateUserRequest, now: Time) returns (r: Result<()>)
      modifies this
      ensures UpdateUserRow in failing ==> r.Err? && State() == old(State())
      ensures UpdateUserRow !in failing ==>
                r == Ok(()) &&
                State() == old(State()).(users := if userId in old(users) then old(users)[userId := Updated(old(users)[userId], req, now)] else old(users))
    {
      var query, args := BuildUpdateUser(userId, req, now);
      if UpdateUserRow in failing {
        return Err(WriteError);
      }
      if userId in users {
        ExecutedIsUpdated(users[userId], userId, req, now);
        users := users[userId := Executed(users[userId], Assignments(req), args)];
      }
      r := Ok(());
    }

    method UpdateUserRole(userId: Uuid, roleId: Uuid, now: Time) returns (r: Result<()>)
      modifies this
      ensures UpdateRole in failing ==> r.Err? && State() == old(State())
      ensures UpdateRole !in failing ==>
                r == Ok(()) &&
                State() == old(State()).(users := if userId in old(users) then old(users)[userId := old(users)[userId].(roleId := roleId, updatedAt := now)] else old(users))
    {
      if UpdateRole in failing {
        return Err(WriteError);
      }
      if userId in users {
        users := users[userId := users[userId].(roleId := roleId, updatedAt := now)];
      }
      r := Ok(());
    }

    /** The soft delete: the account is deactivated, not removed. */
    method DeleteUser(userId: Uuid, now: Time) returns (r: Result<()>)
      modifies this
      ensures DeactivateUser in failing ==> r.Err? && State() == old(State())
      ensures DeactivateUser !in failing ==>
                r == Ok(()) &&
                State() == old(State()).(users := if userId in old(users) then old(users)[userId := old(users)[userId].(isActive := false, updatedAt := now)] else old(users))
    {
      if DeactivateUser in failing {
        return Err(WriteError);
      }
      if userId in users {
        users := users[userId := users[userId].(isActive := false, updatedAt := now)];
      }
      r := Ok(());
    }

    method CreateStudentProfile(s: Student) returns (r: Result<()>)
      modifies this
      ensures InsertStudentProfile in failing || s.id in old(students) ==> r.Err? && State() == old(State())
      ensures !(InsertStudentProfile in failing || s.id in old(students)) ==>
                r == Ok(()) && State() == old(State()).(students := old(students)[s.id := s])
    {
      if InsertStudentProfile in failing {
        return Err(WriteError);
      }
      if s.id in students {
        return Err(DuplicateKey);
      }
      students := students[s.id := s];
      r := Ok(());
    }

    method CreateLecturerProfile(l: Lecturer) returns (r: Result<()>)
      modifies this
      ensures InsertLecturerProfile in failing || l.id in old(lecturers) ==> r.Err? && State() == old(State())
      ensures !(InsertLecturerProfile in failing || l.id in old(lecturers)) ==>
                r == Ok(()) && State() == old(State()).(lecturers := old(lecturers)[l.id := l])
    {
      if InsertLecturerProfile in failing {
        return Err(WriteError);
      }
      if l.id in lecturers {
        return Err(DuplicateKey);
      }
      lecturers := lecturers[l.id := l];
      r := Ok(());
    }

    /** Only the advisor column changes; the student row has no update instant. */
    method UpdateStudentAdvisor(studentId: Uuid, advisorId: Uuid) returns (r: Result<()>)
      modifies this
      ensures UpdateAdvisor in failing ==> r.Err? && State() == old(State())
      ensures UpdateAdvisor !in failing ==>
                r == Ok(()) &&
                State() == old(State()).(students := if studentId in old(students) then old(students)[studentId := old(students)[studentId].(advisorId := advisorId)] else old(students))
    {
      if UpdateAdvisor in failing {
        return Err(WriteError);
      }
      if studentId in students {
        students := students[studentId := students[studentId].(advisorId := advisorId)];
      }
      r := Ok(());
    }

    // ----- paginated reads -----

    /** One page of users; the user at each position comes with the role name
        of the same row. */
    function AllUsers(page: int, limit: int): (r: Result<UserPage>)
      ensures r.Ok? <==> CountOf(AnswerIn(db, UsersStatements(page, limit).count)).Ok? &&
                         ReadIn(db, UsersStatements(page, limit).rows, AsAccount).Ok?
      ensures r.Ok? ==>
                var rows := AnswerIn(db, UsersStatements(page, limit).rows).rows;
                r.value.total == CountOf(AnswerIn(db, UsersStatements(page, limit).count)).value &&
                |r.value.users| == |r.value.roleNames| == |rows| &&
                forall i :: 0 <= i < |rows| ==> rows[i] == UserRow(r.value.users[i], r.value.roleNames[i])
    {
      match ListingIn(db, UsersStatements(page, limit), AsAccount)
      case Err(e) => Err(e)
      case Ok(p) =>
        Ok(UserPage(UsersOf(p.items), RoleNamesOf(p.items), p.total))
    }

    /** The scan loop fills the users and the role names side by side. */
    method GetAllUsers(page: int, limit: int) returns (r: Result<UserPage>)
      ensures r == AllUsers(page, limit)
    {
      var s := UsersStatements(page, limit);
      var total := CountOf(AnswerIn(db, s.count));
      if total.Err? {
        assert AllUsers(page, limit) == Err(total.error);
        return Err(total.error);
      }
      var offset := (page - 1) * limit;
      assert s.rows == Statement(LimitOffset(UsersRows, 1), [IntArg(limit), IntArg(offset)]);
      var a := AnswerIn(db, s.rows);
      if a.QueryFailed? {
        assert AllUsers(page, limit) == Err(QueryError);
        return Err(QueryError);
      }
      var users: seq<User> := [];
      var roleNames: seq<string> := [];
      var i := 0;
      while i < |a.rows|
        invariant 0 <= i <= |a.rows|
        invariant |users| == |roleNames| == i
        invariant forall j :: 0 <= j < i ==> a.rows[j] == UserRow(users[j], roleNames[j])
      {
        if !a.rows[i].UserRow? {
          assert AsAccount(a.rows[i]).None?;
          assert ScanAll(a.rows, AsAccount).Err?;
          assert AllUsers(page, limit) == Err(ScanError);
          return Err(ScanError);
        }
        users := users + [a.rows[i].user];
        roleNames := roleNames + [a.rows[i].roleName];
        i := i + 1;
      }
      ScanAllSucceeds(a.rows, users, roleNames);
      r := Ok(UserPage(users, roleNames, total.value));
    }

    method GetAllStudents(page: int, limit: int) returns (r: Result<Paged<StudentWithUser>>)
      ensures r == ListingIn(db, StudentsStatements(page, limit), AsStudentWithUser)
    {
      r := RunListingIn(db, StudentsStatements(page, limit), AsStudentWithUser);
    }

    /** One student's achievements, deleted ones excluded; the same statements
        as the achievement store's listing of a student. */
    method GetStudentAchievements(studentId: Uuid, page: int, limit: int) returns (r: Result<Page>)
      ensures r == ListingIn(db, StudentAchievementsStatements(studentId, page, limit), AsAchievement)
    {
      r := RunListingIn(db, StudentAchievementsStatements(studentId, page, limit), AsAchievement);
    }

    method GetAllLecturers(page: int, limit: int) returns (r: Result<Paged<LecturerWithUser>>)
      ensures r == ListingIn(db, LecturersStatements(page, limit), AsLecturerWithUser)
    {
      r := RunListingIn(db, LecturersStatements(page, limit), AsLecturerWithUser);
    }

    method GetStudentsByAdvisorID(advisorId: Uuid, page: int, limit: int) returns (r: Result<Paged<StudentWithUser>>)
      ensures r == ListingIn(db, AdviseesStatements(advisorId, page, limit), AsStudentWithUser)
    {
      r := RunListingIn(db, AdviseesStatements(advisorId, page, limit), AsStudentWithUser);
    }
  }

  /** The e-mail check cannot tell a user's own address from another's: a
      user's current address always counts as taken. */
  lemma OwnEmailIsTaken(store: UserStore, userId: Uuid)
    requires userId in store.users && CheckEmail !in store.failing
    ensures store.CheckEmailExists(store.users[userId].email) == Ok(true)
  {
  }
}

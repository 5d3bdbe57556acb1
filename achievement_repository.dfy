/** The achievement store behind the service: the relational references,
    students and lecturers, and the document collection.

    Point lookups and writes act on maps. Every multi-row or aggregate query is
    answered by `db`, an abstract table from the exact statement (its text and
    its arguments) to the rows the database returns; how the database computes
    those rows is not modelled. Writes that the database may refuse for reasons
    outside the model are named in `failing`. */
module AchievementRepository {
  import opened Wrappers
  import opened Identifiers
  import opened Records
  import opened Sql
  import opened AchievementQueries

  /** The store writes, for naming the ones that fail. */
  datatype Call =
    | InsertDocument
    | InsertReference
    | MarkSubmitted
    | SoftDeleteDocument
    | MarkDeleted
    | MarkVerified
    | MarkRejected
    | ReplaceDocument
    | TouchReference
    | PushAttachment
    | InsertStatusLog

  const QueryError: string := "database query failed"
  const WriteError: string := "database write failed"
  const ScanError: string := "sql: Scan error"
  const NoRows: string := "sql: no rows in result set"
  const DuplicateKey: string := "duplicate key value"
  const InvalidObjectId: string := "the provided hex string is not a valid ObjectID"
  const NoDocuments: string := "mongo: no documents in result"

  /** A page of listed rows and the total the count query reported. */
  datatype Paged<T> = Paged(items: seq<T>, total: nat)

  type Page = Paged<AchievementWithStudent>

  /** Everything the store writes. */
  datatype Snapshot = Snapshot(
    references: map<Uuid, AchievementReference>,
    documents: map<ObjectId, AchievementDocument>,
    statusLogs: seq<StatusLog>)

  // ----- scanning rows -----

  function AsId(r: Row): Option<Uuid> {
    if r.IdRow? then Some(r.id) else None
  }

  function AsText(r: Row): Option<string> {
    if r.TextRow? then Some(r.text) else None
  }

  function AsAchievement(r: Row): Option<AchievementWithStudent> {
    if r.AchievementRow? then Some(r.achievement) else None
  }

  function AsPeriod(r: Row): Option<StatsByPeriod> {
    if r.PeriodRow? then Some(r.period) else None
  }

  function AsTopStudent(r: Row): Option<TopStudent> {
    if r.TopStudentRow? then Some(r.top) else None
  }

  function AsStatus(r: Row): Option<StatusDistribution> {
    if r.StatusRow? then Some(r.distribution) else None
  }

  function AsLog(r: Row): Option<StatusLog> {
    if r.LogRow? then Some(r.log) else None
  }

  /** The rows scanned one by one; a row that does not scan fails the read. */
  function ScanAll<T>(rows: seq<Row>, project: Row -> Option<T>): (r: Result<seq<T>>)
    ensures r.Ok? <==> forall i :: 0 <= i < |rows| ==> project(rows[i]).Some?
    ensures r.Ok? ==> |r.value| == |rows| && forall i :: 0 <= i < |rows| ==> r.value[i] == project(rows[i]).value
    ensures r.Err? ==> r.error == ScanError
    decreases |rows|
  {
    if rows == [] then Ok([])
    else
      match (ScanAll(rows[..|rows| - 1], project), project(rows[|rows| - 1]))
      case (Ok(init), Some(last)) => Ok(init + [last])
      case _ => Err(ScanError)
  }

  /** The `for rows.Next()` loop of every multi-row read. */
  method ScanRows<T>(rows: seq<Row>, project: Row -> Option<T>) returns (r: Result<seq<T>>)
    ensures r == ScanAll(rows, project)
  {
    var scanned: seq<T> := [];
    var i := 0;
    while i < |rows|
      invariant 0 <= i <= |rows|
      invariant ScanAll(rows[..i], project) == Ok(scanned)
    {
      var p := project(rows[i]);
      if p.None? {
        return Err(ScanError);
      }
      assert rows[..i + 1][..i] == rows[..i];
      scanned := scanned + [p.value];
      i := i + 1;
    }
    assert rows[..i] == rows;
    r := Ok(scanned);
  }

  /** `QueryRow(...).Scan(&total)` on a count query. */
  function CountOf(a: Answer): (r: Result<nat>)
    ensures r.Ok? <==> a.Rows? && |a.rows| > 0 && a.rows[0].CountRow?
    ensures r.Ok? ==> r.value == a.rows[0].count
  {
    match a
    case QueryFailed => Err(QueryError)
    case Rows(rows) => if rows == [] then Err(NoRows) else if rows[0].CountRow? then Ok(rows[0].count) else Err(ScanError)
  }

  // ----- the statistics tallies -----

  /** The ids of the reference rows that scan as text and parse as an object
      id, in row order; the others are skipped. */
  function CollectIds(rows: seq<Row>): (ids: seq<ObjectId>)
    ensures |ids| <= |rows|
    decreases |rows|
  {
    if rows == [] then []
    else
      var last := rows[|rows| - 1];
      CollectIds(rows[..|rows| - 1]) +
      (if AsText(last).Some? && ObjectIdFromHex(AsText(last).value).Some? then [ObjectIdFromHex(AsText(last).value).value] else [])
  }

  /** Every collected id is the parse of some row. */
  lemma {:induction false} CollectedIdsComeFromRows(rows: seq<Row>, id: ObjectId)
    requires id in CollectIds(rows)
    ensures exists i :: 0 <= i < |rows| && AsText(rows[i]).Some? && ObjectIdFromHex(AsText(rows[i]).value) == Some(id)
    decreases |rows|
  {
    var init := rows[..|rows| - 1];
    if id in CollectIds(init) {
      CollectedIdsComeFromRows(init, id);
      var i :| 0 <= i < |init| && AsText(init[i]).Some? && ObjectIdFromHex(AsText(init[i]).value) == Some(id);
      assert rows[i] == init[i];
    } else {
      assert AsText(rows[|rows| - 1]).Some? && ObjectIdFromHex(AsText(rows[|rows| - 1]).value) == Some(id);
    }
  }

  /** The documents that the ids find, in order; an id whose fetch fails is
      skipped. */
  function Found(docs: map<ObjectId, AchievementDocument>, ids: seq<ObjectId>): (found: seq<AchievementDocument>)
    ensures |found| <= |ids|
    decreases |ids|
  {
    if ids == [] then []
    else Found(docs, ids[..|ids| - 1]) + (if ids[|ids| - 1] in docs then [docs[ids[|ids| - 1]]] else [])
  }

  /** `typeCount[achievement.AchievementType]++` over the fetched documents. */
  function TypeTally(docs: map<ObjectId, AchievementDocument>, ids: seq<ObjectId>): multiset<string>
    decreases |ids|
  {
    if ids == [] then multiset{}
    else
      var last := ids[|ids| - 1];
      TypeTally(docs, ids[..|ids| - 1]) + TypeOf(docs, last)
  }

  /** The type counted for one id: none when no document has it. */
  function TypeOf(docs: map<ObjectId, AchievementDocument>, id: ObjectId): multiset<string> {
    if id in docs then multiset{docs[id].achievementType} else multiset{}
  }

  lemma TypeTallyStep(docs: map<ObjectId, AchievementDocument>, ids: seq<ObjectId>, i: nat)
    requires i < |ids|
    ensures TypeTally(docs, ids[..i + 1]) == TypeTally(docs, ids[..i]) + TypeOf(docs, ids[i])
  {
    assert ids[..i + 1][..i] == ids[..i];
  }

  /** `levelCount[*level]++` over the fetched documents that have a level. */
  function LevelTally(docs: map<ObjectId, AchievementDocument>, ids: seq<ObjectId>): multiset<string>
    decreases |ids|
  {
    if ids == [] then multiset{}
    else
      var last := ids[|ids| - 1];
      LevelTally(docs, ids[..|ids| - 1]) + LevelOf(docs, last)
  }

  /** The level counted for one id: none when no document has it or the
      document has no level. */
  function LevelOf(docs: map<ObjectId, AchievementDocument>, id: ObjectId): multiset<string> {
    if id in docs && docs[id].competitionLevel.Some? then multiset{docs[id].competitionLevel.value} else multiset{}
  }

  lemma LevelTallyStep(docs: map<ObjectId, AchievementDocument>, ids: seq<ObjectId>, i: nat)
    requires i < |ids|
    ensures LevelTally(docs, ids[..i + 1]) == LevelTally(docs, ids[..i]) + LevelOf(docs, ids[i])
  {
    assert ids[..i + 1][..i] == ids[..i];
  }

  function TypesOf(found: seq<AchievementDocument>): (types: seq<string>)
    ensures |types| == |found|
    ensures forall i :: 0 <= i < |found| ==> types[i] == found[i].achievementType
  {
    seq(|found|, i requires 0 <= i < |found| => found[i].achievementType)
  }

  /** The type tally counts each fetched document once, under its own type. */
  lemma {:induction false} TypeTallyCountsFoundDocuments(docs: map<ObjectId, AchievementDocument>, ids: seq<ObjectId>)
    ensures TypeTally(docs, ids) == multiset(TypesOf(Found(docs, ids)))
    decreases |ids|
  {
    if ids != [] {
      var init := ids[..|ids| - 1];
      TypeTallyCountsFoundDocuments(docs, init);
      var last := ids[|ids| - 1];
      if last in docs {
        assert TypesOf(Found(docs, ids)) == TypesOf(Found(docs, init)) + [docs[last].achievementType];
      } else {
        assert Found(docs, ids) == Found(docs, init);
      }
    }
  }

  /** So the type counts add up to the number of documents found, which is at
      most the number of reference rows. */
  lemma TypeTallyTotal(docs: map<ObjectId, AchievementDocument>, rows: seq<Row>)
    ensures |TypeTally(docs, CollectIds(rows))| == |Found(docs, CollectIds(rows))| <= |rows|
  {
    TypeTallyCountsFoundDocuments(docs, CollectIds(rows));
  }

  /** A document without a level is not counted by level, so the level counts
      never add up to more than the type counts. */
  lemma {:induction false} LevelTallyWithinTypeTally(docs: map<ObjectId, AchievementDocument>, ids: seq<ObjectId>)
    ensures |LevelTally(docs, ids)| <= |TypeTally(docs, ids)|
    ensures (forall id :: id in docs ==> docs[id].competitionLevel.Some?) ==> |LevelTally(docs, ids)| == |TypeTally(docs, ids)|
    decreases |ids|
  {
    if ids != [] {
      LevelTallyWithinTypeTally(docs, ids[..|ids| - 1]);
    }
  }

  // ----- answering queries -----

  /** The answer of the abstract table `db` to a statement; a statement it
      does not list fails. */
  function AnswerIn(db: map<Statement, Answer>, s: Statement): Answer {
    if s in db then db[s] else QueryFailed
  }

  /** A multi-row read: the query, then the scan of every row. */
  function ReadIn<T>(db: map<Statement, Answer>, s: Statement, project: Row -> Option<T>): Result<seq<T>> {
    match AnswerIn(db, s)
    case QueryFailed => Err(QueryError)
    case Rows(rows) => ScanAll(rows, project)
  }

  method QueryIn<T>(db: map<Statement, Answer>, s: Statement, project: Row -> Option<T>) returns (r: Result<seq<T>>)
    ensures r == ReadIn(db, s, project)
  {
    var a := AnswerIn(db, s);
    if a.QueryFailed? {
      return Err(QueryError);
    }
    r := ScanRows(a.rows, project);
  }

  /** A listing runs the count query first, then the row query; either
      failing fails the listing. */
  function ListingIn<T>(db: map<Statement, Answer>, s: ListStatements, project: Row -> Option<T>): (r: Result<Paged<T>>)
    ensures r.Ok? <==> CountOf(AnswerIn(db, s.count)).Ok? && ReadIn(db, s.rows, project).Ok?
    ensures r.Ok? ==> r.value == Paged(ReadIn(db, s.rows, project).value, CountOf(AnswerIn(db, s.count)).value)
    ensures CountOf(AnswerIn(db, s.count)).Err? ==> r == Err(CountOf(AnswerIn(db, s.count)).error)
  {
    match CountOf(AnswerIn(db, s.count))
    case Err(e) => Err(e)
    case Ok(total) =>
      match ReadIn(db, s.rows, project)
      case Err(e) => Err(e)
      case Ok(items) => Ok(Paged(items, total))
  }

  method RunListingIn<T>(db: map<Statement, Answer>, s: ListStatements, project: Row -> Option<T>) returns (r: Result<Paged<T>>)
    ensures r == ListingIn(db, s, project)
  {
    var total := CountOf(AnswerIn(db, s.count));
    if total.Err? {
      return Err(total.error);
    }
    var items := QueryIn(db, s.rows, project);
    if items.Err? {
      return Err(items.error);
    }
    r := Ok(Paged(items.value, total.value));
  }

  // ----- the store -----

  class Repository {
    var references: map<Uuid, AchievementReference>
    var documents: map<ObjectId, AchievementDocument>
    var statusLogs: seq<StatusLog>
    /** students by their own id */
    const students: map<Uuid, Student>
    /** students by the id of their account */
    const studentAccounts: map<Uuid, Student>
    /** lecturers by the id of their account */
    const lecturerAccounts: map<Uuid, Lecturer>
    const db: map<Statement, Answer>
    const failing: set<Call>

    constructor (references: map<Uuid, AchievementReference>, documents: map<ObjectId, AchievementDocument>,
                 students: map<Uuid, Student>, studentAccounts: map<Uuid, Student>, lecturerAccounts: map<Uuid, Lecturer>,
                 db: map<Statement, Answer>, failing: set<Call>)
      ensures this.references == references && this.documents == documents && this.statusLogs == []
      ensures this.students == students && this.studentAccounts == studentAccounts && this.lecturerAccounts == lecturerAccounts
      ensures this.db == db && this.failing == failing
    {
      this.references := references;
      this.documents := documents;
      this.statusLogs := [];
      this.students := students;
      this.studentAccounts := studentAccounts;
      this.lecturerAccounts := lecturerAccounts;
      this.db := db;
      this.failing := failing;
    }

    function State(): Snapshot
      reads this
    {
      Snapshot(references, documents, statusLogs)
    }

    function AnswerTo(s: Statement): Answer {
      AnswerIn(db, s)
    }

    function Read<T>(s: Statement, project: Row -> Option<T>): Result<seq<T>> {
      ReadIn(db, s, project)
    }

    method Query<T>(s: Statement, project: Row -> Option<T>) returns (r: Result<seq<T>>)
      ensures r == Read(s, project)
    {
      r := QueryIn(db, s, project);
    }

    // ----- point lookups -----

    function GetStudentByUserID(userId: Uuid): (r: Option<Student>)
      ensures r.Some? <==> userId in studentAccounts
      ensures r.Some? ==> r.value == studentAccounts[userId]
    {
      if userId in studentAccounts then Some(studentAccounts[userId]) else None
    }

    function GetLecturerByUserID(userId: Uuid): (r: Option<Lecturer>)
      ensures r.Some? <==> userId in lecturerAccounts
      ensures r.Some? ==> r.value == lecturerAccounts[userId]
    {
      if userId in lecturerAccounts then Some(lecturerAccounts[userId]) else None
    }

    function GetStudentByID(studentId: Uuid): (r: Option<Student>)
      ensures r.Some? <==> studentId in students
      ensures r.Some? ==> r.value == students[studentId]
    {
      if studentId in students then Some(students[studentId]) else None
    }

    /** A missing student gives an error and the nil id. */
    function GetAdvisorIDByStudentID(studentId: Uuid): (r: Result<Uuid>)
      ensures r.Ok? <==> studentId in students
      ensures r.Ok? ==> r.value == students[studentId].advisorId
    {
      if studentId in students then Ok(students[studentId].advisorId) else Err(NoRows)
    }

    function GetAchievementReferenceByID(id: Uuid): (r: Option<AchievementReference>)
      reads this
      ensures r.Some? <==> id in references
      ensures r.Some? ==> r.value == references[id]
    {
      if id in references then Some(references[id]) else None
    }

    /** The document text id is parsed first; a document is found whether or
        not it is tombstoned. */
    function GetAchievementDetailFromMongo(hexId: string): (r: Result<AchievementDocument>)
      reads this
      ensures r.Ok? <==> ObjectIdFromHex(hexId).Some? && ObjectIdFromHex(hexId).value in documents
      ensures r.Ok? ==> r.value == documents[ObjectIdFromHex(hexId).value]
      ensures !IsObjectIdHex(hexId) ==> r == Err(InvalidObjectId)
    {
      ObjectIdFromHexSucceeds(hexId);
      match ObjectIdFromHex(hexId)
      case None => Err(InvalidObjectId)
      case Some(id) => if id in documents then Ok(documents[id]) else Err(NoDocuments)
    }

    // ----- multi-row reads -----

    method GetStudentIDsByAdvisorID(advisorId: Uuid) returns (r: Result<seq<Uuid>>)
      ensures r == Read(AdviseeIdsStatement(advisorId), AsId)
    {
      r := Query(AdviseeIdsStatement(advisorId), AsId);
    }

    /** The id of every student; the statement behind it is not part of this model. */
    method GetAllStudentIDs() returns (r: Result<seq<Uuid>>)
      ensures r == Read(AllStudentIdsStatement(), AsId)
    {
      r := Query(AllStudentIdsStatement(), AsId);
    }

    method GetAchievementStatusHistory(achievementId: Uuid) returns (r: Result<seq<StatusLog>>)
      ensures r == Read(StatusHistoryStatement(achievementId), AsLog)
    {
      r := Query(StatusHistoryStatement(achievementId), AsLog);
    }

    function Listing(s: ListStatements): (r: Result<Page>)
      ensures r.Ok? <==> CountOf(AnswerTo(s.count)).Ok? && Read(s.rows, AsAchievement).Ok?
      ensures r.Ok? ==> r.value == Paged(Read(s.rows, AsAchievement).value, CountOf(AnswerTo(s.count)).value)
    {
      ListingIn(db, s, AsAchievement)
    }

    method RunListing(s: ListStatements) returns (r: Result<Page>)
      ensures r == Listing(s)
    {
      r := RunListingIn(db, s, AsAchievement);
    }

    /** The listing over a set of students; no students means no rows and a
        total of 0, without any query. */
    function StudentInfoListing(ids: seq<Uuid>, status: string, page: int, limit: int): (r: Result<Page>)
      ensures |ids| == 0 ==> r == Ok(Paged([], 0))
      ensures |ids| > 0 ==> r == Listing(StudentInfoStatements(ids, status, page, limit))
    {
      if |ids| == 0 then Ok(Paged([], 0)) else Listing(StudentInfoStatements(ids, status, page, limit))
    }

    method GetAchievementsWithStudentInfo(ids: seq<Uuid>, status: string, page: int, limit: int) returns (r: Result<Page>)
      ensures r == StudentInfoListing(ids, status, page, limit)
    {
      if |ids| == 0 {
        return Ok(Paged([], 0));
      }
      var s := BuildStudentInfoStatements(ids, status, page, limit);
      r := RunListing(s);
    }

    method GetAllAchievementsForAdmin(f: AdminAchievementFilters, page: int, limit: int) returns (r: Result<Page>)
      ensures r == Listing(AdminStatements(f, page, limit))
    {
      var s := BuildAdminStatements(f, page, limit);
      r := RunListing(s);
    }

    /** One student's own listing, deleted references excluded. */
    method GetStudentAchievements(studentId: Uuid, page: int, limit: int) returns (r: Result<Page>)
      ensures r == Listing(StudentAchievementsStatements(studentId, page, limit))
    {
      r := RunListing(StudentAchievementsStatements(studentId, page, limit));
    }

    method GetTotalAchievements(ids: seq<Uuid>, f: StatisticsFilters) returns (r: Result<nat>)
      ensures r == CountOf(AnswerTo(TotalStatement(ids, f)))
    {
      var s := BuildStatisticsStatement(TotalHead, ids, f, "", true, "");
      r := CountOf(AnswerTo(s));
    }

    method GetStatisticsByPeriod(ids: seq<Uuid>, f: StatisticsFilters) returns (r: Result<seq<StatsByPeriod>>)
      ensures r == Read(PeriodStatement(ids, f), AsPeriod)
    {
      var s := BuildStatisticsStatement(PeriodHead, ids, f, "", true, PeriodTail);
      r := Query(s, AsPeriod);
    }

    method GetTopStudents(ids: seq<Uuid>, f: StatisticsFilters, limit: int) returns (r: Result<seq<TopStudent>>)
      ensures r == Read(TopStudentsStatement(ids, f, limit), AsTopStudent)
    {
      var s := BuildTopStudentsStatement(ids, f, limit);
      r := Query(s, AsTopStudent);
    }

    /** The status filter is never applied here, only the dates. */
    method GetStatusDistribution(ids: seq<Uuid>, f: StatisticsFilters) returns (r: Result<seq<StatusDistribution>>)
      ensures r == Read(StatusDistributionStatement(ids, f), AsStatus)
    {
      var s := BuildStatisticsStatement(StatusHead, ids, f, "", false, StatusTail);
      r := Query(s, AsStatus);
    }

    /** The text ids of the matching references, parsed; rows that do not scan
        or do not parse are skipped. */
    method CollectDocumentIds(ids: seq<Uuid>, f: StatisticsFilters) returns (r: Result<seq<ObjectId>>)
      ensures AnswerTo(DocumentIdsStatement(ids, f)).QueryFailed? ==> r == Err(QueryError)
      ensures AnswerTo(DocumentIdsStatement(ids, f)).Rows? ==> r == Ok(CollectIds(AnswerTo(DocumentIdsStatement(ids, f)).rows))
    {
      var s := BuildStatisticsStatement(DocumentIdsHead, ids, f, "", true, "");
      var a := AnswerTo(s);
      if a.QueryFailed? {
        return Err(QueryError);
      }
      var rows := a.rows;
      var collected: seq<ObjectId> := [];
      var i := 0;
      while i < |rows|
        invariant 0 <= i <= |rows|
        invariant collected == CollectIds(rows[..i])
      {
        assert rows[..i + 1][..i] == rows[..i];
        var text := AsText(rows[i]);
        if text.Some? {
          var id := ObjectIdFromHex(text.value);
          if id.Some? {
            collected := collected + [id.value];
          }
        }
        i := i + 1;
      }
      assert rows[..i] == rows;
      r := Ok(collected);
    }

    /** Each document fetched from the collection `coll` adds 1 to the count
        of its type. The collection is the caller's argument, not the
        repository's own. */
    method GetStatisticsByType(ids: seq<Uuid>, f: StatisticsFilters, coll: map<ObjectId, AchievementDocument>)
      returns (r: Result<multiset<string>>)
      ensures AnswerTo(DocumentIdsStatement(ids, f)).QueryFailed? ==> r == Err(QueryError)
      ensures AnswerTo(DocumentIdsStatement(ids, f)).Rows? ==>
                r == Ok(TypeTally(coll, CollectIds(AnswerTo(DocumentIdsStatement(ids, f)).rows)))
    {
      var objectIds := CollectDocumentIds(ids, f);
      if objectIds.Err? {
        return Err(objectIds.error);
      }
      var counts := CountTypes(objectIds.value, coll);
      r := Ok(counts);
    }

    /** The counting loop of GetStatisticsByType. */
    method CountTypes(oids: seq<ObjectId>, coll: map<ObjectId, AchievementDocument>) returns (typeCount: multiset<string>)
      ensures typeCount == TypeTally(coll, oids)
    {
      typeCount := multiset{};
      var i := 0;
      while i < |oids|
        invariant 0 <= i <= |oids|
        invariant typeCount == TypeTally(coll, oids[..i])
      {
        TypeTallyStep(coll, oids, i);
        if oids[i] in coll {
          typeCount := typeCount + multiset{coll[oids[i]].achievementType};
        }
        i := i + 1;
      }
      assert oids[..i] == oids;
    }

    /** Each document fetched from `coll` that has a level adds 1 to the
        count of its level. */
    method GetLevelDistribution(ids: seq<Uuid>, f: StatisticsFilters, coll: map<ObjectId, AchievementDocument>)
      returns (r: Result<multiset<string>>)
      ensures AnswerTo(DocumentIdsStatement(ids, f)).QueryFailed? ==> r == Err(QueryError)
      ensures AnswerTo(DocumentIdsStatement(ids, f)).Rows? ==>
                r == Ok(LevelTally(coll, CollectIds(AnswerTo(DocumentIdsStatement(ids, f)).rows)))
    {
      var objectIds := CollectDocumentIds(ids, f);
      if objectIds.Err? {
        return Err(objectIds.error);
      }
      var counts := CountLevels(objectIds.value, coll);
      r := Ok(counts);
    }

    /** The counting loop of GetLevelDistribution. */
    method CountLevels(oids: seq<ObjectId>, coll: map<ObjectId, AchievementDocument>) returns (levelCount: multiset<string>)
      ensures levelCount == LevelTally(coll, oids)
    {
      levelCount := multiset{};
      var i := 0;
      while i < |oids|
        invariant 0 <= i <= |oids|
        invariant levelCount == LevelTally(coll, oids[..i])
      {
        LevelTallyStep(coll, oids, i);
        if oids[i] in coll && coll[oids[i]].competitionLevel.Some? {
          levelCount := levelCount + multiset{coll[oids[i]].competitionLevel.value};
        }
        i := i + 1;
      }
      assert oids[..i] == oids;
    }

    // ----- writes -----

    /** Inserting a document returns its id as hex text; an id already taken
        is refused. */
    method SaveAchievementMongo(doc: AchievementDocument) returns (r: Result<string>)
      modifies this
      ensures InsertDocument in failing || doc.id in old(documents) ==> r.Err? && State() == old(State())
      ensures !(InsertDocument in failing || doc.id in old(documents)) ==>
                r == Ok(Hex(doc.id)) && State() == old(State()).(documents := old(documents)[doc.id := doc])
    {
      if InsertDocument in failing {
        return Err(WriteError);
      }
      if doc.id in documents {
        return Err(DuplicateKey);
      }
      documents := documents[doc.id := doc];
      r := Ok(Hex(doc.id));
    }

    /** Only the id, student, document id, status and the two timestamps are
        inserted; the other columns start empty. */
    method SaveAchievementReference(ref: AchievementReference) returns (r: Result<()>)
      modifies this
      ensures InsertReference in failing || ref.id in old(references) ==> r.Err? && State() == old(State())
      ensures !(InsertReference in failing || ref.id in old(references)) ==>
                r == Ok(()) &&
                State() == old(State()).(references := old(references)[ref.id := ref.(submittedAt := None, verifiedAt := None, verifiedBy := None, rejectionNote := None)])
    {
      if InsertReference in failing {
        return Err(WriteError);
      }
      if ref.id in references {
        return Err(DuplicateKey);
      }
      references := references[ref.id := ref.(submittedAt := None, verifiedAt := None, verifiedBy := None, rejectionNote := None)];
      r := Ok(());
    }

    /** An UPDATE that matches no row changes nothing and is not an error. */
    method UpdateAchievementStatusToSubmitted(id: Uuid, now: Time) returns (r: Result<()>)
      modifies this
      ensures MarkSubmitted in failing ==> r.Err? && State() == old(State())
      ensures MarkSubmitted !in failing ==>
                r == Ok(()) &&
                State() == old(State()).(references :=
                  if id in old(references) then old(references)[id := old(references)[id].(status := Submitted, submittedAt := Some(now), updatedAt := now)]
                  else old(references))
    {
      if MarkSubmitted in failing {
        return Err(WriteError);
      }
      if id in references {
        references := references[id := references[id].(status := Submitted, submittedAt := Some(now), updatedAt := now)];
      }
      r := Ok(());
    }

    method UpdateAchievementReferenceToDeleted(id: Uuid, now: Time) returns (r: Result<()>)
      modifies this
      ensures MarkDeleted in failing ==> r.Err? && State() == old(State())
      ensures MarkDeleted !in failing ==>
                r == Ok(()) &&
                State() == old(State()).(references :=
                  if id in old(references) then old(references)[id := old(references)[id].(status := Deleted, updatedAt := now)]
                  else old(references))
    {
      if MarkDeleted in failing {
        return Err(WriteError);
      }
      if id in references {
        references := references[id := references[id].(status := Deleted, updatedAt := now)];
      }
      r := Ok(());
    }

    method UpdateAchievementStatusToVerified(id: Uuid, lecturerId: Uuid, now: Time) returns (r: Result<()>)
      modifies this
      ensures MarkVerified in failing ==> r.Err? && State() == old(State())
      ensures MarkVerified !in failing ==>
                r == Ok(()) &&
                State() == old(State()).(references :=
                  if id in old(references)
                  then old(references)[id := old(references)[id].(status := Verified, verifiedBy := Some(lecturerId), verifiedAt := Some(now), updatedAt := now)]
                  else old(references))
    {
      if MarkVerified in failing {
        return Err(WriteError);
      }
      if id in references {
        references := references[id := references[id].(status := Verified, verifiedBy := Some(lecturerId), verifiedAt := Some(now), updatedAt := now)];
      }
      r := Ok(());
    }

    method UpdateAchievementStatusToRejected(id: Uuid, note: string, now: Time) returns (r: Result<()>)
      modifies this
      ensures MarkRejected in failing ==> r.Err? && State() == old(State())
      ensures MarkRejected !in failing ==>
                r == Ok(()) &&
                State() == old(State()).(references :=
                  if id in old(references)
                  then old(references)[id := old(references)[id].(status := Rejected, rejectionNote := Some(note), updatedAt := now)]
                  else old(references))
    {
      if MarkRejected in failing {
        return Err(WriteError);
      }
      if id in references {
        references := references[id := references[id].(status := Rejected, rejectionNote := Some(note), updatedAt := now)];
      }
      r := Ok(());
    }

    method UpdateAchievementTimestamp(id: Uuid, now: Time) returns (r: Result<()>)
      modifies this
      ensures TouchReference in failing ==> r.Err? && State() == old(State())
      ensures TouchReference !in failing ==>
                r == Ok(()) &&
                State() == old(State()).(references :=
                  if id in old(references) then old(references)[id := old(references)[id].(updatedAt := now)] else old(references))
    {
      if TouchReference in failing {
        return Err(WriteError);
      }
      if id in references {
        references := references[id := references[id].(updatedAt := now)];
      }
      r := Ok(());
    }

    /** The soft delete parses the id first, then stamps the document; no
        matching document is not an error. */
    method SoftDeleteAchievementMongo(hexId: string, now: Time) returns (r: Result<()>)
      modifies this
      ensures ObjectIdFromHex(hexId).None? ==> r == Err(InvalidObjectId) && State() == old(State())
      ensures ObjectIdFromHex(hexId).Some? && SoftDeleteDocument in failing ==> r.Err? && State() == old(State())
      ensures ObjectIdFromHex(hexId).Some? && SoftDeleteDocument !in failing ==>
                var id := ObjectIdFromHex(hexId).value;
                r == Ok(()) &&
                State() == old(State()).(documents :=
                  if id in old(documents) then old(documents)[id := old(documents)[id].(deletedAt := Some(now), updatedAt := now)] else old(documents))
    {
      var parsed := ObjectIdFromHex(hexId);
      if parsed.None? {
        return Err(InvalidObjectId);
      }
      if SoftDeleteDocument in failing {
        return Err(WriteError);
      }
      var id := parsed.value;
      if id in documents {
        documents := documents[id := documents[id].(deletedAt := Some(now), updatedAt := now)];
      }
      r := Ok(());
    }

    /** `$set` of the whole record on the document with the same id. */
    method UpdateAchievementInMongo(doc: AchievementDocument) returns (r: Result<()>)
      modifies this
      ensures ReplaceDocument in failing ==> r.Err? && State() == old(State())
      ensures ReplaceDocument !in failing ==>
                r == Ok(()) &&
                State() == old(State()).(documents := if doc.id in old(documents) then old(documents)[doc.id := doc] else old(documents))
    {
      if ReplaceDocument in failing {
        return Err(WriteError);
      }
      if doc.id in documents {
        documents := documents[doc.id := doc];
      }
      r := Ok(());
    }

    /** A non-hex id is refused before any update; otherwise exactly one
        attachment with the given name, link and type is pushed. */
    method AddAttachmentToAchievement(hexId: string, fileName: string, fileUrl: string, fileType: string, now: Time) returns (r: Result<()>)
      modifies this
      ensures ObjectIdFromHex(hexId).None? ==> r == Err(InvalidObjectId) && State() == old(State())
      ensures ObjectIdFromHex(hexId).Some? && PushAttachment in failing ==> r.Err? && State() == old(State())
      ensures ObjectIdFromHex(hexId).Some? && PushAttachment !in failing ==>
                var id := ObjectIdFromHex(hexId).value;
                r == Ok(()) &&
                State() == old(State()).(documents :=
                  if id in old(documents)
                  then old(documents)[id := old(documents)[id].(attachments := old(documents)[id].attachments + [Attachment(fileName, fileUrl, fileType, now)], updatedAt := now)]
                  else old(documents))
    {
      var parsed := ObjectIdFromHex(hexId);
      if parsed.None? {
        return Err(InvalidObjectId);
      }
      if PushAttachment in failing {
        return Err(WriteError);
      }
      var id := parsed.value;
      if id in documents {
        var d := documents[id];
        documents := documents[id := d.(attachments := d.attachments + [Attachment(fileName, fileUrl, fileType, now)], updatedAt := now)];
      }
      r := Ok(());
    }

    /** Declared by the store but called by no service. */
    method LogAchievementStatusChange(log: StatusLog) returns (r: Result<()>)
      modifies this
      ensures InsertStatusLog in failing ==> r.Err? && State() == old(State())
      ensures InsertStatusLog !in failing ==> r == Ok(()) && State() == old(State()).(statusLogs := old(statusLogs) + [log])
    {
      if InsertStatusLog in failing {
        return Err(WriteError);
      }
      statusLogs := statusLogs + [log];
      r := Ok(());
    }
  }
}

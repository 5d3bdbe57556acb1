/** The plain records of the system: the relational achievement reference and
    its status log, students, lecturers and users, the flexible achievement
    document, and the response and filter shapes of the listing and statistics
    operations. They carry no behaviour. */
module Records {
  import opened Wrappers
  import opened Identifiers

  // ----- achievement statuses (stored as text) -----

  const Draft: string := "draft"
  const Submitted: string := "submitted"
  const Verified: string := "verified"
  const Rejected: string := "rejected"
  const Deleted: string := "deleted"

  /** The authoritative relational record of one achievement. */
  datatype AchievementReference = AchievementReference(
    id: Uuid,
    studentId: Uuid,
    mongoAchievementId: string,
    status: string,
    submittedAt: Option<Time>,
    verifiedAt: Option<Time>,
    verifiedBy: Option<Uuid>,
    rejectionNote: Option<string>,
    createdAt: Time,
    updatedAt: Time)

  datatype Student = Student(
    id: Uuid,
    userId: Uuid,
    studentNumber: string,
    programStudy: string,
    academicYear: string,
    advisorId: Uuid,
    createdAt: Time)

  datatype Lecturer = Lecturer(
    id: Uuid,
    userId: Uuid,
    lecturerNumber: string,
    department: string,
    createdAt: Time)

  datatype Attachment = Attachment(fileName: string, fileUrl: string, fileType: string, uploadedAt: Time)

  /** The flexible document-store record. `customFields` is `None` for a nil map. */
  datatype AchievementDocument = AchievementDocument(
    id: ObjectId,
    studentId: Uuid,
    achievementType: string,
    title: string,
    description: string,
    competitionLevel: Option<string>,
    attachments: seq<Attachment>,
    customFields: Option<map<string, string>>,
    createdAt: Time,
    updatedAt: Time,
    deletedAt: Option<Time>)

  /** A listed reference joined with its student, plus the document details
      that the service fills in afterwards (`None` when that fetch failed). */
  datatype AchievementWithStudent = AchievementWithStudent(
    reference: AchievementReference,
    studentNumber: string,
    studentName: string,
    programStudy: string,
    details: Option<AchievementDocument>)

  datatype StatusLog = StatusLog(
    id: Uuid,
    achievementId: Uuid,
    status: string,
    changedBy: Option<Uuid>,
    changedByName: Option<string>,
    rejectionNote: Option<string>,
    createdAt: Time)

  datatype PaginationMetadata = PaginationMetadata(page: int, limit: int, total: int, totalPages: int)

  datatype AchievementListResponse = AchievementListResponse(
    achievements: seq<AchievementWithStudent>,
    pagination: PaginationMetadata)

  datatype AchievementHistoryResponse = AchievementHistoryResponse(achievementId: Uuid, timeline: seq<StatusLog>)

  datatype AdminAchievementFilters = AdminAchievementFilters(
    status: string,
    studentId: Option<Uuid>,
    dateFrom: Option<Time>,
    dateTo: Option<Time>,
    sortBy: string,
    sortOrder: string)

  /** Statistics filters; the dates are the caller's "YYYY-MM-DD" text. */
  datatype StatisticsFilters = StatisticsFilters(
    dateFrom: Option<string>,
    dateTo: Option<string>,
    status: string,
    studentId: Option<Uuid>)

  datatype StatsByPeriod = StatsByPeriod(period: string, count: nat)

  datatype TopStudent = TopStudent(studentId: Uuid, studentNumber: string, studentName: string, programStudy: string, count: nat)

  datatype StatusDistribution = StatusDistribution(status: string, count: nat)

  /** Overall statistics. The by-type and by-level tallies are multisets: the
      multiplicity of a value is its count (the source keeps a map from value to
      count and turns it into a list in map iteration order). */
  datatype AchievementStatistics = AchievementStatistics(
    totalAchievements: nat,
    byType: multiset<string>,
    byPeriod: seq<StatsByPeriod>,
    topStudents: seq<TopStudent>,
    levelDistribution: multiset<string>,
    statusDistribution: seq<StatusDistribution>)

  const EmptyStatistics := AchievementStatistics(0, multiset{}, [], [], multiset{}, [])

  // ----- users (the account side) -----

  datatype User = User(
    id: Uuid,
    username: string,
    email: string,
    passwordHash: string,
    fullName: string,
    roleId: Uuid,
    isActive: bool,
    createdAt: Time,
    updatedAt: Time)

  datatype Role = Role(id: Uuid, name: string, description: string, createdAt: Time)

  /** A user row together with the name of its role, as the lookups that join
      the roles table return it. */
  datatype Account = Account(user: User, roleName: string)

  /** The public view of a user; `permissions` is filled in only at sign-in. */
  datatype UserResponse = UserResponse(id: Uuid, username: string, fullName: string, role: string, permissions: seq<string>)

  datatype StudentWithUser = StudentWithUser(student: Student, username: string, fullName: string, email: string, advisorName: string)

  datatype LecturerWithUser = LecturerWithUser(lecturer: Lecturer, username: string, fullName: string, email: string)

  /** One row of a multi-row or aggregate query result, by the shape the
      caller scans it into. A row of another shape than expected fails to scan. */
  datatype Row =
    | CountRow(count: nat)
    | IdRow(id: Uuid)
    | TextRow(text: string)
    | AchievementRow(achievement: AchievementWithStudent)
    | PeriodRow(period: StatsByPeriod)
    | TopStudentRow(top: TopStudent)
    | StatusRow(distribution: StatusDistribution)
    | LogRow(log: StatusLog)
    | UserRow(user: User, roleName: string)
    | StudentRow(student: StudentWithUser)
    | LecturerRow(lecturer: LecturerWithUser)

  /** What the database answers to a query: its rows, or an error. */
  datatype Answer = Rows(rows: seq<Row>) | QueryFailed
}

/** The user administration service: creating accounts with an optional
    student or lecturer profile, updating, deactivating and re-roling them,
    re-assigning a student's advisor, and the paginated listings of users,
    students, lecturers, a student's achievements and a lecturer's advisees.

    Every write is a fixed chain of checks, each with its own error, in front
    of at most two store writes. A failed check writes nothing. A failed
    profile insert leaves the user insert in place. The clock is the
    parameter `now`, the fresh ids the source draws are the parameters
    `userId` and `profileId`, and the password hash is the parameter `hashed`
    (None when hashing fails). */
module UserService {
  import opened Wrappers
  import opened Identifiers
  import opened Records
  import opened Pagination
  import opened AchievementQueries
  import opened AchievementRepository
  import opened UserRepository

  const FailedCheckUsername: string := "failed to check username"
  const UsernameExists: string := "username already exists"
  const FailedCheckEmail: string := "failed to check email"
  const EmailExists: string := "email already exists"
  const RoleNotFound: string := "role not found"
  const FailedHash: string := "failed to hash password"
  const FailedCreateUser: string := "failed to create user"
  const FailedStudentProfile: string := "failed to create student profile"
  const FailedLecturerProfile: string := "failed to create lecturer profile"
  const UserNotFound: string := "user not found"
  const FailedUpdateUser: string := "failed to update user"
  const FailedDeleteUser: string := "failed to delete user"
  const FailedUpdateRole: string := "failed to update user role"
  const StudentNotFound: string := "student not found"
  const AdvisorNotFound: string := "advisor not found or not a lecturer"
  const FailedUpdateAdvisor: string := "failed to update student advisor"
  const FailedGetUsers: string := "failed to get users"
  const FailedGetStudents: string := "failed to get students"
  const FailedGetAchievements: string := "failed to get student achievements"
  const FailedGetLecturers: string := "failed to get lecturers"
  const LecturerNotFound: string := "lecturer not found"
  const FailedGetAdvisees: string := "failed to get lecturer advisees"

  const StudentType: string := "student"
  const LecturerType: string := "lecturer"

  /** The profile fields of a creation request; the student fields and the
      lecturer fields share one record. */
  datatype ProfileData = ProfileData(
    studentNumber: string,
    programStudy: string,
    academicYear: string,
    advisorId: Uuid,
    lecturerNumber: string,
    department: string)

  datatype CreateUserRequest = CreateUserRequest(
    username: string,
    email: string,
    password: string,
    fullName: string,
    roleId: Uuid,
    isActive: bool,
    profileType: string,
    profileData: Option<ProfileData>)

  datatype Profile = StudentProfile(student: Student) | LecturerProfile(lecturer: Lecturer)

  datatype UserListResponse = UserListResponse(users: seq<UserResponse>, pagination: PaginationMetadata)

  datatype StudentListResponse = StudentListResponse(students: seq<StudentWithUser>, pagination: PaginationMetadata)

  datatype LecturerListResponse = LecturerListResponse(lecturers: seq<LecturerWithUser>, pagination: PaginationMetadata)

  /** No two accounts share a user name or an e-mail address. */
  predicate UniqueLogins(users: map<Uuid, User>) {
    forall a, b :: a in users && b in users && a != b ==>
      users[a].username != users[b].username && users[a].email != users[b].email
  }

  /** The account a creation request describes. */
  function NewUser(req: CreateUserRequest, userId: Uuid, hash: string, now: Time): (u: User)
    ensures u.id == userId && u.passwordHash == hash && u.createdAt == now && u.updatedAt == now
    ensures u.username == req.username && u.email == req.email && u.fullName == req.fullName
    ensures u.roleId == req.roleId && u.isActive == req.isActive
  {
    User(userId, req.username, req.email, hash, req.fullName, req.roleId, req.isActive, now, now)
  }

  /** The profile a creation request asks for: one exists only when profile
      data is given and the type is "student" or "lecturer", and it belongs
      to the new account. */
  function ProfileFor(req: CreateUserRequest, profileId: Uuid, userId: Uuid, now: Time): (p: Option<Profile>)
    ensures p.Some? <==> req.profileData.Some? && (req.profileType == StudentType || req.profileType == LecturerType)
    ensures p.Some? && req.profileType == StudentType ==>
              var d := req.profileData.value;
              p.value == StudentProfile(Student(profileId, userId, d.studentNumber, d.programStudy, d.academicYear, d.advisorId, now))
    ensures p.Some? && req.profileType == LecturerType ==>
              var d := req.profileData.value;
              p.value == LecturerProfile(Lecturer(profileId, userId, d.lecturerNumber, d.department, now))
  {
    if req.profileType == "" || req.profileData.None? then None
    else
      var d := req.profileData.value;
      if req.profileType == StudentType then
        Some(StudentProfile(Student(profileId, userId, d.studentNumber, d.programStudy, d.academicYear, d.advisorId, now)))
      else if req.profileType == LecturerType then
        Some(LecturerProfile(Lecturer(profileId, userId, d.lecturerNumber, d.department, now)))
      else None
  }

  /** The public view of an account. */
  function Summary(user: User, roleName: string): UserResponse {
    UserResponse(user.id, user.username, user.fullName, roleName, [])
  }

  /** Inserting an account whose id, user name and e-mail are all unused
      keeps user names and e-mail addresses unique. */
  lemma InsertKeepsLoginsUnique(users: map<Uuid, User>, u: User)
    requires UniqueLogins(users)
    requires u.id !in users
    requires forall id :: id in users ==> users[id].username != u.username && users[id].email != u.email
    ensures UniqueLogins(users[u.id := u])
  {
    var users' := users[u.id := u];
    forall a, b | a in users' && b in users' && a != b
      ensures users'[a].username != users'[b].username && users'[a].email != users'[b].email
    {
      if a == u.id {
        assert users'[b] == users[b];
      } else if b == u.id {
        assert users'[a] == users[a];
      } else {
        assert users'[a] == users[a] && users'[b] == users[b];
      }
    }
  }

  /** An update keeps user names and e-mail addresses unique when a new
      e-mail, if one is given, belongs to nobody (not even the account
      itself). */
  lemma UpdateKeepsLoginsUnique(users: map<Uuid, User>, userId: Uuid, req: UpdateUserRequest, now: Time)
    requires UniqueLogins(users)
    requires userId in users
    requires req.email != "" ==> forall id :: id in users ==> users[id].email != req.email
    ensures UniqueLogins(users[userId := Updated(users[userId], req, now)])
  {
    var v := Updated(users[userId], req, now);
    UpdatedChangesOnlyTheGivenColumns(users[userId], req, now);
    var users' := users[userId := v];
    forall a, b | a in users' && b in users' && a != b
      ensures users'[a].username != users'[b].username && users'[a].email != users'[b].email
    {
      if a == userId {
        assert users'[b] == users[b];
      } else if b == userId {
        assert users'[a] == users[a];
      } else {
        assert users'[a] == users[a] && users'[b] == users[b];
      }
    }
  }

  class Service {
    const store: UserStore

    constructor (store: UserStore)
      ensures this.store == store
    {
      this.store := store;
    }

    /** The checks in front of an account's creation, in order: the user name
        is free, then the e-mail is free, then the role exists, then the
        password hashed. The value is the hash. */
    function Admission(req: CreateUserRequest, hashed: Option<string>): (r: Result<string>)
      reads store
      ensures r.Ok? <==> store.CheckUsernameExists(req.username) == Ok(false) &&
                         store.CheckEmailExists(req.email) == Ok(false) &&
                         req.roleId in store.roles && hashed.Some?
      ensures r.Ok? ==> r.value == hashed.value &&
                        forall id :: id in store.users ==>
                          store.users[id].username != req.username && store.users[id].email != req.email
      ensures store.CheckUsernameExists(req.username).Err? ==> r == Err(FailedCheckUsername)
      ensures store.CheckUsernameExists(req.username) == Ok(true) ==> r == Err(UsernameExists)
      ensures store.CheckUsernameExists(req.username) == Ok(false) ==>
                (store.CheckEmailExists(req.email).Err? ==> r == Err(FailedCheckEmail)) &&
                (store.CheckEmailExists(req.email) == Ok(true) ==> r == Err(EmailExists)) &&
                (store.CheckEmailExists(req.email) == Ok(false) && req.roleId !in store.roles ==> r == Err(RoleNotFound)) &&
                (store.CheckEmailExists(req.email) == Ok(false) && req.roleId in store.roles && hashed.None? ==>
                   r == Err(FailedHash))
    {
      var usernameTaken := store.CheckUsernameExists(req.username);
      var emailTaken := store.CheckEmailExists(req.email);
      if usernameTaken.Err? then Err(FailedCheckUsername)
      else if usernameTaken.value then Err(UsernameExists)
      else if emailTaken.Err? then Err(FailedCheckEmail)
      else if emailTaken.value then Err(EmailExists)
      else if store.GetRoleByID(req.roleId).None? then Err(RoleNotFound)
      else if hashed.None? then Err(FailedHash)
      else Ok(hashed.value)
    }

    method CreateUser(req: CreateUserRequest, userId: Uuid, profileId: Uuid, hashed: Option<string>, now: Time)
      returns (r: Result<User>)
      modifies store
      ensures old(Admission(req, hashed)).Err? ==>
                r == Err(old(Admission(req, hashed)).error) && store.State() == old(store.State())
      ensures old(Admission(req, hashed)).Ok? ==>
                var u := NewUser(req, userId, hashed.value, now);
                var users' := old(store.users)[userId := u];
                if InsertUser in store.failing || userId in old(store.users) then
                  r == Err(FailedCreateUser) && store.State() == old(store.State())
                else match ProfileFor(req, profileId, userId, now)
                  case None =>
                    r == Ok(u) && store.State() == old(store.State()).(users := users')
                  case Some(StudentProfile(s)) =>
                    if InsertStudentProfile in store.failing || profileId in old(store.students) then
                      r == Err(FailedStudentProfile) && store.State() == old(store.State()).(users := users')
                    else
                      r == Ok(u) && store.State() == old(store.State()).(users := users', students := old(store.students)[profileId := s])
                  case Some(LecturerProfile(l)) =>
                    if InsertLecturerProfile in store.failing || profileId in old(store.lecturers) then
                      r == Err(FailedLecturerProfile) && store.State() == old(store.State()).(users := users')
                    else
                      r == Ok(u) && store.State() == old(store.State()).(users := users', lecturers := old(store.lecturers)[profileId := l])
      ensures old(UniqueLogins(store.users)) ==> UniqueLogins(store.users)
    {
      var usernameTaken := store.CheckUsernameExists(req.username);
      if usernameTaken.Err? {
        return Err(FailedCheckUsername);
      }
      if usernameTaken.value {
        return Err(UsernameExists);
      }
      var emailTaken := store.CheckEmailExists(req.email);
      if emailTaken.Err? {
        return Err(FailedCheckEmail);
      }
      if emailTaken.value {
        return Err(EmailExists);
      }
      var role := store.GetRoleByID(req.roleId);
      if role.None? {
        return Err(RoleNotFound);
      }
      if hashed.None? {
        return Err(FailedHash);
      }
      ghost var before := store.users;
      var user := NewUser(req, userId, hashed.value, now);
      var created := store.CreateUser(user);
      if created.Err? {
        return Err(FailedCreateUser);
      }
      if UniqueLogins(before) {
        InsertKeepsLoginsUnique(before, user);
      }
      if req.profileType != "" && req.profileData.Some? {
        var d := req.profileData.value;
        if req.profileType == StudentType {
          var student := Student(profileId, userId, d.studentNumber, d.programStudy, d.academicYear, d.advisorId, now);
          var saved := store.CreateStudentProfile(student);
          if saved.Err? {
            return Err(FailedStudentProfile);
          }
        } else if req.profileType == LecturerType {
          var lecturer := Lecturer(profileId, userId, d.lecturerNumber, d.department, now);
          var saved := store.CreateLecturerProfile(lecturer);
          if saved.Err? {
            return Err(FailedLecturerProfile);
          }
        }
      }
      r := Ok(user);
    }

    /** An account with its role name, as the public view. */
    function GetUserByID(userId: Uuid): (r: Result<UserResponse>)
      reads store
      ensures r.Ok? <==> userId in store.users && store.users[userId].roleId in store.roles
      ensures r.Err? ==> r.error == UserNotFound
      ensures r.Ok? ==> r.value.id == store.users[userId].id && r.value.permissions == [] &&
                        r.value.username == store.users[userId].username &&
                        r.value.fullName == store.users[userId].fullName &&
                        r.value.role == store.roles[store.users[userId].roleId].name
    {
      match store.GetUserByID(userId)
      case None => Err(UserNotFound)
      case Some(a) => Ok(Summary(a.user, a.roleName))
    }

    /** One page of accounts, each with the role name of its own row. */
    method GetUsers(page: int, limit: int) returns (r: Result<UserListResponse>)
      ensures var p, l := NormalizePage(page), NormalizeLimit(limit);
              match store.AllUsers(p, l)
              case Err(_) => r == Err(FailedGetUsers)
              case Ok(found) =>
                r.Ok? && r.value.pagination == Metadata(p, l, found.total) &&
                |r.value.users| == |found.users| &&
                forall i :: 0 <= i < |found.users| ==> r.value.users[i] == Summary(found.users[i], found.roleNames[i])
    {
      var p, l := page, limit;
      if p < 1 {
        p := 1;
      }
      if l < 1 || l > 100 {
        l := 10;
      }
      var found := store.GetAllUsers(p, l);
      if found.Err? {
        return Err(FailedGetUsers);
      }
      var users, roleNames := found.value.users, found.value.roleNames;
      var responses: seq<UserResponse> := [];
      for i := 0 to |users|
        invariant |responses| == i
        invariant forall j :: 0 <= j < i ==> responses[j] == Summary(users[j], roleNames[j])
      {
        responses := responses + [UserResponse(users[i].id, users[i].username, users[i].fullName, roleNames[i], [])];
      }
      r := Ok(UserListResponse(responses, Metadata(p, l, found.value.total)));
    }

    /** The checks in front of an account update: the account exists, and a
        new e-mail, when one is given, is not in use by any account. The
        value is the account as it stands. */
    function UpdateCheck(userId: Uuid, req: UpdateUserRequest): (r: Result<User>)
      reads store
      ensures r.Ok? <==> store.GetUserByID(userId).Some? &&
                         (req.email != "" ==> store.CheckEmailExists(req.email) == Ok(false))
      ensures r.Ok? ==> userId in store.users && r.value == store.users[userId] &&
                        (req.email != "" ==> forall id :: id in store.users ==> store.users[id].email != req.email)
      ensures store.GetUserByID(userId).None? ==> r == Err(UserNotFound)
      ensures store.GetUserByID(userId).Some? && req.email != "" ==>
                (store.CheckEmailExists(req.email).Err? ==> r == Err(FailedCheckEmail)) &&
                (store.CheckEmailExists(req.email) == Ok(true) ==> r == Err(EmailExists))
    {
      if store.GetUserByID(userId).None? then Err(UserNotFound)
      else if req.email != "" && store.CheckEmailExists(req.email).Err? then Err(FailedCheckEmail)
      else if req.email != "" && store.CheckEmailExists(req.email).value then Err(EmailExists)
      else Ok(store.users[userId])
    }

    method UpdateUser(userId: Uuid, req: UpdateUserRequest, now: Time) returns (r: Result<User>)
      modifies store
      ensures old(UpdateCheck(userId, req)).Err? ==>
                r == old(UpdateCheck(userId, req)) && store.State() == old(store.State())
      ensures old(UpdateCheck(userId, req)).Ok? ==>
                var u := Updated(old(store.users)[userId], req, now);
                if UpdateUserRow in store.failing then
                  r == Err(FailedUpdateUser) && store.State() == old(store.State())
                else
                  r == Ok(u) && store.State() == old(store.State()).(users := old(store.users)[userId := u])
      ensures old(UniqueLogins(store.users)) ==> UniqueLogins(store.users)
    {
      var found := store.GetUserByID(userId);
      if found.None? {
        return Err(UserNotFound);
      }
      if req.email != "" {
        var taken := store.CheckEmailExists(req.email);
        if taken.Err? {
          return Err(FailedCheckEmail);
        }
        if taken.value {
          return Err(EmailExists);
        }
      }
      ghost var before := store.users;
      var written := store.UpdateUser(userId, req, now);
      if written.Err? {
        return Err(FailedUpdateUser);
      }
      if UniqueLogins(before) {
        UpdateKeepsLoginsUnique(before, userId, req, now);
      }
      // The update keeps the role, so the re-read finds the account.
      UpdatedChangesOnlyTheGivenColumns(before[userId], req, now);
      var updated := store.GetUserByID(userId);
      r := Ok(updated.value.user);
    }

    /** The soft delete of an existing account. */
    method DeleteUser(userId: Uuid, now: Time) returns (r: Result<()>)
      modifies store
      ensures old(store.GetUserByID(userId)).None? ==> r == Err(UserNotFound) && store.State() == old(store.State())
      ensures old(store.GetUserByID(userId)).Some? ==>
                if DeactivateUser in store.failing then
                  r == Err(FailedDeleteUser) && store.State() == old(store.State())
                else
                  r == Ok(()) &&
                  store.State() == old(store.State()).(users := old(store.users)[userId := old(store.users)[userId].(isActive := false, updatedAt := now)])
      ensures old(UniqueLogins(store.users)) ==> UniqueLogins(store.users)
    {
      var found := store.GetUserByID(userId);
      if found.None? {
        return Err(UserNotFound);
      }
      var written := store.DeleteUser(userId, now);
      if written.Err? {
        return Err(FailedDeleteUser);
      }
      r := Ok(());
    }

    /** The account is checked before the role, and both before the write. */
    method UpdateUserRole(userId: Uuid, roleId: Uuid, now: Time) returns (r: Result<User>)
      modifies store
      ensures old(store.GetUserByID(userId)).None? ==> r == Err(UserNotFound) && store.State() == old(store.State())
      ensures old(store.GetUserByID(userId)).Some? && roleId !in store.roles ==>
                r == Err(RoleNotFound) && store.State() == old(store.State())
      ensures old(store.GetUserByID(userId)).Some? && roleId in store.roles ==>
                var u := old(store.users)[userId].(roleId := roleId, updatedAt := now);
                if UpdateRole in store.failing then
                  r == Err(FailedUpdateRole) && store.State() == old(store.State())
                else
                  r == Ok(u) && store.State() == old(store.State()).(users := old(store.users)[userId := u])
      ensures old(UniqueLogins(store.users)) ==> UniqueLogins(store.users)
    {
      var found := store.GetUserByID(userId);
      if found.None? {
        return Err(UserNotFound);
      }
      var role := store.GetRoleByID(roleId);
      if role.None? {
        return Err(RoleNotFound);
      }
      var written := store.UpdateUserRole(userId, roleId, now);
      if written.Err? {
        return Err(FailedUpdateRole);
      }
      // The new role exists, so the re-read finds the account.
      var updated := store.GetUserByID(userId);
      r := Ok(updated.value.user);
    }

    // ----- students and lecturers -----

    method GetStudents(page: int, limit: int) returns (r: Result<StudentListResponse>)
      ensures var p, l := NormalizePage(page), NormalizeLimit(limit);
              match ListingIn(store.db, StudentsStatements(p, l), AsStudentWithUser)
              case Err(_) => r == Err(FailedGetStudents)
              case Ok(found) => r == Ok(StudentListResponse(found.items, Metadata(p, l, found.total)))
    {
      var p, l := page, limit;
      if p < 1 {
        p := 1;
      }
      if l < 1 || l > 100 {
        l := 10;
      }
      var found := store.GetAllStudents(p, l);
      if found.Err? {
        return Err(FailedGetStudents);
      }
      r := Ok(StudentListResponse(found.value.items, Metadata(p, l, found.value.total)));
    }

    /** A student with its account's details. */
    function GetStudentByID(studentId: Uuid): (r: Result<StudentWithUser>)
      reads store
      ensures r.Ok? <==> store.GetStudentWithUserByID(studentId).Some?
      ensures r.Err? ==> r.error == StudentNotFound
      ensures r.Ok? ==> r.value.student == store.students[studentId]
      ensures r.Ok? ==> r.value == store.GetStudentWithUserByID(studentId).value
    {
      match store.GetStudentWithUserByID(studentId)
      case None => Err(StudentNotFound)
      case Some(s) => Ok(s)
    }

    /** A student's achievements; the student itself is not looked up. */
    method GetStudentAchievements(studentId: Uuid, page: int, limit: int) returns (r: Result<AchievementListResponse>)
      ensures var p, l := NormalizePage(page), NormalizeLimit(limit);
              match ListingIn(store.db, StudentAchievementsStatements(studentId, p, l), AsAchievement)
              case Err(_) => r == Err(FailedGetAchievements)
              case Ok(found) => r == Ok(AchievementListResponse(found.items, Metadata(p, l, found.total)))
    {
      var p, l := page, limit;
      if p < 1 {
        p := 1;
      }
      if l < 1 || l > 100 {
        l := 10;
      }
      var found := store.GetStudentAchievements(studentId, p, l);
      if found.Err? {
        return Err(FailedGetAchievements);
      }
      r := Ok(AchievementListResponse(found.value.items, Metadata(p, l, found.value.total)));
    }

    /** The student (with an active account) is checked before the advisor,
        and both before the write; only the advisor changes. */
    method UpdateStudentAdvisor(studentId: Uuid, advisorId: Uuid) returns (r: Result<Student>)
      modifies store
      ensures old(store.GetStudentWithUserByID(studentId)).None? ==>
                r == Err(StudentNotFound) && store.State() == old(store.State())
      ensures old(store.GetStudentWithUserByID(studentId)).Some? && advisorId !in store.lecturers ==>
                r == Err(AdvisorNotFound) && store.State() == old(store.State())
      ensures old(store.GetStudentWithUserByID(studentId)).Some? && advisorId in store.lecturers ==>
                var s := old(store.students)[studentId].(advisorId := advisorId);
                if UpdateAdvisor in store.failing then
                  r == Err(FailedUpdateAdvisor) && store.State() == old(store.State())
                else
                  r == Ok(s) && store.State() == old(store.State()).(students := old(store.students)[studentId := s])
    {
      var student := store.GetStudentWithUserByID(studentId);
      if student.None? {
        return Err(StudentNotFound);
      }
      var advisor := store.GetLecturerByID(advisorId);
      if advisor.None? {
        return Err(AdvisorNotFound);
      }
      var written := store.UpdateStudentAdvisor(studentId, advisorId);
      if written.Err? {
        return Err(FailedUpdateAdvisor);
      }
      var updated := store.GetStudentByID(studentId);
      r := Ok(updated.value);
    }

    method GetLecturers(page: int, limit: int) returns (r: Result<LecturerListResponse>)
      ensures var p, l := NormalizePage(page), NormalizeLimit(limit);
              match ListingIn(store.db, LecturersStatements(p, l), AsLecturerWithUser)
              case Err(_) => r == Err(FailedGetLecturers)
              case Ok(found) => r == Ok(LecturerListResponse(found.items, Metadata(p, l, found.total)))
    {
      var p, l := page, limit;
      if p < 1 {
        p := 1;
      }
      if l < 1 || l > 100 {
        l := 10;
      }
      var found := store.GetAllLecturers(p, l);
      if found.Err? {
        return Err(FailedGetLecturers);
      }
      r := Ok(LecturerListResponse(found.value.items, Metadata(p, l, found.value.total)));
    }

    /** The lecturer must exist before its advisees are listed. */
    method GetLecturerAdvisees(lecturerId: Uuid, page: int, limit: int) returns (r: Result<StudentListResponse>)
      ensures lecturerId !in store.lecturers ==> r == Err(LecturerNotFound)
      ensures lecturerId in store.lecturers ==>
                var p, l := NormalizePage(page), NormalizeLimit(limit);
                match ListingIn(store.db, AdviseesStatements(lecturerId, p, l), AsStudentWithUser)
                case Err(_) => r == Err(FailedGetAdvisees)
                case Ok(found) => r == Ok(StudentListResponse(found.items, Metadata(p, l, found.total)))
    {
      var p, l := page, limit;
      if p < 1 {
        p := 1;
      }
      if l < 1 || l > 100 {
        l := 10;
      }
      var lecturer := store.GetLecturerByID(lecturerId);
      if lecturer.None? {
        return Err(LecturerNotFound);
      }
      var found := store.GetStudentsByAdvisorID(lecturerId, p, l);
      if found.Err? {
        return Err(FailedGetAdvisees);
      }
      r := Ok(StudentListResponse(found.value.items, Metadata(p, l, found.value.total)));
    }
  }

  /** An update that repeats the account's own e-mail is refused: the check
      counts the account's own address as taken. */
  lemma OwnEmailIsRefused(svc: Service, userId: Uuid, req: UpdateUserRequest)
    requires svc.store.GetUserByID(userId).Some?
    requires CheckEmail !in svc.store.failing
    requires req.email != "" && req.email == svc.store.users[userId].email
    ensures svc.UpdateCheck(userId, req) == Err(EmailExists)
  {
    OwnEmailIsTaken(svc.store, userId);
  }

  /** A creation request repeating an existing user name is refused with the
      user-name error, whatever else is wrong with it. */
  lemma TakenUsernameIsReportedFirst(svc: Service, req: CreateUserRequest, hashed: Option<string>, other: Uuid)
    requires CheckUsername !in svc.store.failing
    requires other in svc.store.users && svc.store.users[other].username == req.username
    ensures svc.Admission(req, hashed) == Err(UsernameExists)
  {
    assert svc.store.CheckUsernameExists(req.username) == Ok(true);
  }
}

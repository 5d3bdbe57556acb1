/** The achievement service: creation, the lifecycle transitions, reads with
    their access rules, the listings and the statistics.

    Every operation is a fixed chain of checks, each with its own error, in
    front of at most two store writes. A failed check writes nothing. A failed
    second write leaves the first in place. The clock is the parameter `now`,
    and the fresh ids the source draws are the parameters `docId` and `refId`. */
module AchievementService {
  import opened Wrappers
  import opened Identifiers
  import opened Records
  import opened Pagination
  import opened AchievementQueries
  import opened AchievementRepository
  import opened AchievementLifecycle

  const OnlyDraftUpdated: string := "only draft achievements can be updated"
  const MustBeDraftToSubmit: string := "achievement must be in 'draft' status to submit"
  const OnlyDraftDeleted: string := "only draft achievements can be deleted"
  const MustBeSubmittedToVerify: string := "achievement must be in 'submitted' status to verify"
  const MustBeSubmittedToReject: string := "achievement must be in 'submitted' status to reject"
  const NotAdvisorToVerify: string := "unauthorized: you can only verify achievements of your advisees"
  const NotAdvisorToReject: string := "unauthorized: you can only reject achievements of your advisees"
  const AttachmentStatusError: string := "attachments can only be added to draft or rejected achievements"
  const InvalidMongoId: string := "invalid mongo achievement ID"
  const FailedToUpdate: string := "failed to update achievement"
  const FailedToTouch: string := "failed to update achievement timestamp"
  const FailedToSubmit: string := "failed to update achievement status"
  const FailedToSoftDelete: string := "failed to delete achievement from MongoDB"
  const FailedToMarkDeleted: string := "failed to update achievement status in PostgreSQL"
  const FailedToVerify: string := "failed to verify achievement"
  const FailedToReject: string := "failed to reject achievement"
  const FailedToAttach: string := "failed to add attachment"
  const InvalidAchievementIdFormat: string := "invalid achievement ID format"
  const NotOwnView: string := "unauthorized: you can only view your own achievements"
  const AccessDenied: string := "unauthorized: access denied"
  const NotAdvisorView: string := "unauthorized: you can only view achievements of your advisees"
  const HistoryDenied: string := "unauthorized: you can only view history of your own achievements or your advisees' achievements"
  const FailedHistory: string := "failed to get achievement history"
  const FailedStudentList: string := "failed to get student list"
  const FailedAchievements: string := "failed to get achievements"
  const FailedAllStudents: string := "failed to get all students"
  const FailedTotal: string := "failed to get total achievements"

  /** The statistics show at most this many top students. */
  const TopStudentsLimit: int := 10

  /** The document as the create path stores it: linked to the student, stamped
      with the creation instant, and with custom fields present even when the
      request had none. */
  function NewDocument(req: AchievementDocument, docId: ObjectId, studentId: Uuid, now: Time): (d: AchievementDocument)
    ensures d.id == docId && d.studentId == studentId && d.createdAt == now && d.updatedAt == now
    ensures d.customFields.Some?
    ensures req.customFields.None? ==> d.customFields == Some(map[])
    ensures req.customFields.Some? ==> d.customFields == req.customFields
    ensures d.achievementType == req.achievementType && d.title == req.title && d.description == req.description
    ensures d.competitionLevel == req.competitionLevel && d.attachments == req.attachments && d.deletedAt == req.deletedAt
  {
    req.(id := docId, studentId := studentId, createdAt := now, updatedAt := now,
         customFields := if req.customFields.None? then Some(map[]) else req.customFields)
  }

  /** The reference of a new achievement: a draft of the student, pointing at
      its document by the document's hex id. */
  function NewReference(refId: Uuid, studentId: Uuid, mongoId: string, now: Time): (ref: AchievementReference)
    ensures ref.id == refId && ref.studentId == studentId && ref.mongoAchievementId == mongoId && ref.status == Draft
    ensures ref.submittedAt.None? && ref.verifiedAt.None? && ref.verifiedBy.None? && ref.rejectionNote.None?
    ensures ref.createdAt == now && ref.updatedAt == now
  {
    AchievementReference(refId, studentId, mongoId, Draft, None, None, None, None, now, now)
  }

  class Service {
    const repo: Repository

    constructor (repo: Repository)
      ensures this.repo == repo
    {
      this.repo := repo;
    }

    function Owned(userId: Uuid, id: Uuid, a: Action, statusError: string): Result<AchievementReference>
      reads repo
    {
      OwnerGuard(repo.studentAccounts, repo.references, userId, id, a, statusError)
    }

    function Advised(userId: Uuid, id: Uuid, a: Action, statusError: string, advisorError: string): Result<Lecturer>
      reads repo
    {
      AdvisorGuard(repo.lecturerAccounts, repo.students, repo.references, userId, id, a, statusError, advisorError)
    }

    // ----- creation -----

    method SubmitPrestasi(userId: Uuid, req: AchievementDocument, docId: ObjectId, refId: Uuid, now: Time)
      returns (r: Result<AchievementReference>)
      modifies repo
      ensures userId !in repo.studentAccounts ==> r == Err(StudentNotFoundForUser) && repo.State() == old(repo.State())
      ensures userId in repo.studentAccounts ==>
                var student := repo.studentAccounts[userId];
                var doc := NewDocument(req, docId, student.id, now);
                var ref := NewReference(refId, student.id, Hex(docId), now);
                if InsertDocument in repo.failing || docId in old(repo.documents) then
                  r.Err? && repo.State() == old(repo.State())
                else if InsertReference in repo.failing || refId in old(repo.references) then
                  r.Err? && repo.State() == old(repo.State()).(documents := old(repo.documents)[docId := doc])
                else
                  r == Ok(ref) &&
                  repo.State() == old(repo.State()).(documents := old(repo.documents)[docId := doc],
                                                     references := old(repo.references)[refId := ref])
      ensures r.Ok? ==> r.value.status == Draft && ObjectIdFromHex(r.value.mongoAchievementId) == Some(docId)
    {
      var student := repo.GetStudentByUserID(userId);
      if student.None? {
        return Err(StudentNotFoundForUser);
      }
      var doc := NewDocument(req, docId, student.value.id, now);
      var mongoId := repo.SaveAchievementMongo(doc);
      if mongoId.Err? {
        return Err(mongoId.error);
      }
      var ref := NewReference(refId, student.value.id, mongoId.value, now);
      var saved := repo.SaveAchievementReference(ref);
      if saved.Err? {
        return Err(saved.error);
      }
      ObjectIdRoundTrip(docId);
      r := Ok(ref);
    }

    // ----- the student's transitions -----

    method UpdateAchievement(userId: Uuid, id: Uuid, req: AchievementDocument, now: Time) returns (r: Result<AchievementReference>)
      modifies repo
      ensures old(Owned(userId, id, Edit, OnlyDraftUpdated)).Err? ==>
                r == Err(old(Owned(userId, id, Edit, OnlyDraftUpdated)).error) && repo.State() == old(repo.State())
      ensures old(Owned(userId, id, Edit, OnlyDraftUpdated)).Ok? ==>
                var ref := old(repo.references)[id];
                match ObjectIdFromHex(ref.mongoAchievementId)
                case None => r == Err(InvalidMongoId) && repo.State() == old(repo.State())
                case Some(oid) =>
                  var docs := if oid in old(repo.documents) then old(repo.documents)[oid := req.(id := oid, updatedAt := now)] else old(repo.documents);
                  if ReplaceDocument in repo.failing then r == Err(FailedToUpdate) && repo.State() == old(repo.State())
                  else if TouchReference in repo.failing then r == Err(FailedToTouch) && repo.State() == old(repo.State()).(documents := docs)
                  else r == Ok(ref.(updatedAt := now)) &&
                       repo.State() == old(repo.State()).(documents := docs, references := old(repo.references)[id := ref.(updatedAt := now)])
      ensures r.Ok? ==> r.value.status == Draft
    {
      var student := repo.GetStudentByUserID(userId);
      if student.None? {
        return Err(StudentNotFoundForUser);
      }
      var ref := repo.GetAchievementReferenceByID(id);
      if ref.None? {
        return Err(AchievementNotFound);
      }
      if ref.value.studentId != student.value.id {
        return Err(NotOwner);
      }
      if ref.value.status != Draft {
        return Err(OnlyDraftUpdated);
      }
      var oid := ObjectIdFromHex(ref.value.mongoAchievementId);
      if oid.None? {
        return Err(InvalidMongoId);
      }
      var replaced := repo.UpdateAchievementInMongo(req.(id := oid.value, updatedAt := now));
      if replaced.Err? {
        return Err(FailedToUpdate);
      }
      var touched := repo.UpdateAchievementTimestamp(id, now);
      if touched.Err? {
        return Err(FailedToTouch);
      }
      r := Ok(repo.GetAchievementReferenceByID(id).value);
    }

    method SubmitForVerification(userId: Uuid, id: Uuid, now: Time) returns (r: Result<AchievementReference>)
      modifies repo
      ensures old(Owned(userId, id, Submit, MustBeDraftToSubmit)).Err? ==>
                r == Err(old(Owned(userId, id, Submit, MustBeDraftToSubmit)).error) && repo.State() == old(repo.State())
      ensures old(Owned(userId, id, Submit, MustBeDraftToSubmit)).Ok? ==>
                var ref := old(repo.references)[id];
                var submitted := ref.(status := Submitted, submittedAt := Some(now), updatedAt := now);
                if MarkSubmitted in repo.failing then r == Err(FailedToSubmit) && repo.State() == old(repo.State())
                else r == Ok(submitted) && Next(ref.status, Submit) == Some(submitted.status) &&
                     repo.State() == old(repo.State()).(references := old(repo.references)[id := submitted])
    {
      var student := repo.GetStudentByUserID(userId);
      if student.None? {
        return Err(StudentNotFoundForUser);
      }
      var ref := repo.GetAchievementReferenceByID(id);
      if ref.None? {
        return Err(AchievementNotFound);
      }
      if ref.value.studentId != student.value.id {
        return Err(NotOwner);
      }
      if ref.value.status != Draft {
        return Err(MustBeDraftToSubmit);
      }
      var marked := repo.UpdateAchievementStatusToSubmitted(id, now);
      if marked.Err? {
        return Err(FailedToSubmit);
      }
      r := Ok(repo.GetAchievementReferenceByID(id).value);
    }

    /** The document is tombstoned first, then the reference is marked
        deleted; when the second write fails the tombstone stays. */
    method DeleteDraftAchievement(userId: Uuid, id: Uuid, now: Time) returns (r: Result<()>)
      modifies repo
      ensures old(Owned(userId, id, Delete, OnlyDraftDeleted)).Err? ==>
                r == Err(old(Owned(userId, id, Delete, OnlyDraftDeleted)).error) && repo.State() == old(repo.State())
      ensures old(Owned(userId, id, Delete, OnlyDraftDeleted)).Ok? ==>
                var ref := old(repo.references)[id];
                match ObjectIdFromHex(ref.mongoAchievementId)
                case None => r == Err(FailedToSoftDelete) && repo.State() == old(repo.State())
                case Some(oid) =>
                  var docs := if oid in old(repo.documents) then old(repo.documents)[oid := old(repo.documents)[oid].(deletedAt := Some(now), updatedAt := now)] else old(repo.documents);
                  if SoftDeleteDocument in repo.failing then r == Err(FailedToSoftDelete) && repo.State() == old(repo.State())
                  else if MarkDeleted in repo.failing then r == Err(FailedToMarkDeleted) && repo.State() == old(repo.State()).(documents := docs)
                  else r == Ok(()) && Next(ref.status, Delete) == Some(Deleted) &&
                       repo.State() == old(repo.State()).(documents := docs, references := old(repo.references)[id := ref.(status := Deleted, updatedAt := now)])
    {
      var student := repo.GetStudentByUserID(userId);
      if student.None? {
        return Err(StudentNotFoundForUser);
      }
      var ref := repo.GetAchievementReferenceByID(id);
      if ref.None? {
        return Err(AchievementNotFound);
      }
      if ref.value.studentId != student.value.id {
        return Err(NotOwner);
      }
      if ref.value.status != Draft {
        return Err(OnlyDraftDeleted);
      }
      var tomb := repo.SoftDeleteAchievementMongo(ref.value.mongoAchievementId, now);
      if tomb.Err? {
        return Err(FailedToSoftDelete);
      }
      var marked := repo.UpdateAchievementReferenceToDeleted(id, now);
      if marked.Err? {
        return Err(FailedToMarkDeleted);
      }
      r := Ok(());
    }

    /** Attachments go on drafts and on rejected achievements; the status is
        left as it is. */
    method UploadAttachment(userId: Uuid, id: Uuid, fileName: string, fileUrl: string, fileType: string, now: Time) returns (r: Result<()>)
      modifies repo
      ensures old(Owned(userId, id, Attach, AttachmentStatusError)).Err? ==>
                r == Err(old(Owned(userId, id, Attach, AttachmentStatusError)).error) && repo.State() == old(repo.State())
      ensures old(Owned(userId, id, Attach, AttachmentStatusError)).Ok? ==>
                var ref := old(repo.references)[id];
                match ObjectIdFromHex(ref.mongoAchievementId)
                case None => r == Err(FailedToAttach) && repo.State() == old(repo.State())
                case Some(oid) =>
                  if PushAttachment in repo.failing then r == Err(FailedToAttach) && repo.State() == old(repo.State())
                  else r == Ok(()) && repo.references == old(repo.references) &&
                       repo.State() == old(repo.State()).(documents :=
                         if oid in old(repo.documents)
                         then old(repo.documents)[oid := old(repo.documents)[oid].(attachments := old(repo.documents)[oid].attachments + [Attachment(fileName, fileUrl, fileType, now)], updatedAt := now)]
                         else old(repo.documents))
    {
      var student := repo.GetStudentByUserID(userId);
      if student.None? {
        return Err(StudentNotFoundForUser);
      }
      var ref := repo.GetAchievementReferenceByID(id);
      if ref.None? {
        return Err(AchievementNotFound);
      }
      if ref.value.studentId != student.value.id {
        return Err(NotOwner);
      }
      if ref.value.status != Draft && ref.value.status != Rejected {
        return Err(AttachmentStatusError);
      }
      var pushed := repo.AddAttachmentToAchievement(ref.value.mongoAchievementId, fileName, fileUrl, fileType, now);
      if pushed.Err? {
        return Err(FailedToAttach);
      }
      r := Ok(());
    }

    // ----- the lecturer's decisions -----

    method VerifyAchievement(userId: Uuid, id: Uuid, now: Time) returns (r: Result<AchievementReference>)
      modifies repo
      ensures old(Advised(userId, id, Verify, MustBeSubmittedToVerify, NotAdvisorToVerify)).Err? ==>
                r == Err(old(Advised(userId, id, Verify, MustBeSubmittedToVerify, NotAdvisorToVerify)).error) &&
                repo.State() == old(repo.State())
      ensures old(Advised(userId, id, Verify, MustBeSubmittedToVerify, NotAdvisorToVerify)).Ok? ==>
                var ref := old(repo.references)[id];
                var lecturer := repo.lecturerAccounts[userId];
                var verified := ref.(status := Verified, verifiedBy := Some(lecturer.id), verifiedAt := Some(now), updatedAt := now);
                if MarkVerified in repo.failing then r == Err(FailedToVerify) && repo.State() == old(repo.State())
                else r == Ok(verified) && Next(ref.status, Verify) == Some(verified.status) &&
                     repo.State() == old(repo.State()).(references := old(repo.references)[id := verified])
    {
      var lecturer := repo.GetLecturerByUserID(userId);
      if lecturer.None? {
        return Err(LecturerNotFoundForUser);
      }
      var ref := repo.GetAchievementReferenceByID(id);
      if ref.None? {
        return Err(AchievementNotFound);
      }
      if ref.value.status != Submitted {
        return Err(MustBeSubmittedToVerify);
      }
      var student := repo.GetStudentByID(ref.value.studentId);
      if student.None? {
        return Err(StudentDataNotFound);
      }
      if student.value.advisorId != lecturer.value.id {
        return Err(NotAdvisorToVerify);
      }
      var marked := repo.UpdateAchievementStatusToVerified(id, lecturer.value.id, now);
      if marked.Err? {
        return Err(FailedToVerify);
      }
      r := Ok(repo.GetAchievementReferenceByID(id).value);
    }

    method RejectAchievement(userId: Uuid, id: Uuid, note: string, now: Time) returns (r: Result<AchievementReference>)
      modifies repo
      ensures note == "" ==> r == Err(RejectionNoteRequired) && repo.State() == old(repo.State())
      ensures note != "" && old(Advised(userId, id, Reject, MustBeSubmittedToReject, NotAdvisorToReject)).Err? ==>
                r == Err(old(Advised(userId, id, Reject, MustBeSubmittedToReject, NotAdvisorToReject)).error) &&
                repo.State() == old(repo.State())
      ensures note != "" && old(Advised(userId, id, Reject, MustBeSubmittedToReject, NotAdvisorToReject)).Ok? ==>
                var ref := old(repo.references)[id];
                var rejected := ref.(status := Rejected, rejectionNote := Some(note), updatedAt := now);
                if MarkRejected in repo.failing then r == Err(FailedToReject) && repo.State() == old(repo.State())
                else r == Ok(rejected) && Next(ref.status, Reject) == Some(rejected.status) &&
                     repo.State() == old(repo.State()).(references := old(repo.references)[id := rejected])
    {
      if note == "" {
        return Err(RejectionNoteRequired);
      }
      var lecturer := repo.GetLecturerByUserID(userId);
      if lecturer.None? {
        return Err(LecturerNotFoundForUser);
      }
      var ref := repo.GetAchievementReferenceByID(id);
      if ref.None? {
        return Err(AchievementNotFound);
      }
      if ref.value.status != Submitted {
        return Err(MustBeSubmittedToReject);
      }
      var student := repo.GetStudentByID(ref.value.studentId);
      if student.None? {
        return Err(StudentDataNotFound);
      }
      if student.value.advisorId != lecturer.value.id {
        return Err(NotAdvisorToReject);
      }
      var marked := repo.UpdateAchievementStatusToRejected(id, note, now);
      if marked.Err? {
        return Err(FailedToReject);
      }
      r := Ok(repo.GetAchievementReferenceByID(id).value);
    }

    // ----- reads -----

    /** One document, for its owner or for the lecturer advising its owner. */
    function GetAchievementByID(userId: Uuid, hexId: string): (r: Result<AchievementDocument>)
      reads repo
      ensures !IsObjectIdHex(hexId) ==> r == Err(InvalidAchievementIdFormat)
      ensures r.Ok? <==> ObjectIdFromHex(hexId).Some? && ObjectIdFromHex(hexId).value in repo.documents &&
                         MayView(repo.studentAccounts, repo.lecturerAccounts, repo.students, userId,
                                 repo.documents[ObjectIdFromHex(hexId).value].studentId)
      ensures r.Ok? ==> r.value == repo.documents[ObjectIdFromHex(hexId).value].(id := ObjectIdFromHex(hexId).value)
    {
      ObjectIdFromHexSucceeds(hexId);
      match ObjectIdFromHex(hexId)
      case None => Err(InvalidAchievementIdFormat)
      case Some(objectId) =>
        match repo.GetAchievementDetailFromMongo(hexId)
        case Err(_) => Err(AchievementNotFound)
        case Ok(doc) =>
          match repo.GetStudentByUserID(userId)
          case Some(student) =>
            if doc.studentId != student.id then Err(NotOwnView) else Ok(doc.(id := objectId))
          case None =>
            match repo.GetLecturerByUserID(userId)
            case None => Err(AccessDenied)
            case Some(lecturer) =>
              match repo.GetStudentByID(doc.studentId)
              case None => Err(StudentDataNotFound)
              case Some(owner) =>
                if owner.advisorId != lecturer.id then Err(NotAdvisorView) else Ok(doc.(id := objectId))
    }

    /** The status timeline, for its owner or for the lecturer advising its owner. */
    method GetAchievementHistory(userId: Uuid, id: Uuid) returns (r: Result<AchievementHistoryResponse>)
      ensures id !in repo.references ==> r == Err(AchievementNotFound)
      ensures id in repo.references &&
              !MayReadHistory(repo.studentAccounts, repo.lecturerAccounts, repo.students, userId, repo.references[id].studentId) ==>
                r == Err(HistoryDenied)
      ensures id in repo.references &&
              MayReadHistory(repo.studentAccounts, repo.lecturerAccounts, repo.students, userId, repo.references[id].studentId) ==>
                r == match repo.Read(StatusHistoryStatement(id), AsLog)
                     case Err(_) => Err(FailedHistory)
                     case Ok(timeline) => Ok(AchievementHistoryResponse(id, timeline))
    {
      var ref := repo.GetAchievementReferenceByID(id);
      if ref.None? {
        return Err(AchievementNotFound);
      }
      var student := repo.GetStudentByUserID(userId);
      var isStudent := student.Some? && student.value.id == ref.value.studentId;
      var isAdvisor := false;
      if !isStudent {
        var lecturer := repo.GetLecturerByUserID(userId);
        if lecturer.Some? {
          var owner := repo.GetStudentByID(ref.value.studentId);
          if owner.Some? && owner.value.advisorId == lecturer.value.id {
            isAdvisor := true;
          }
        }
      }
      if !isStudent && !isAdvisor {
        return Err(HistoryDenied);
      }
      var timeline := repo.GetAchievementStatusHistory(id);
      if timeline.Err? {
        return Err(FailedHistory);
      }
      r := Ok(AchievementHistoryResponse(id, timeline.value));
    }

    // ----- listings -----

    /** A listed achievement with its document when the fetch succeeds, and as
        scanned otherwise. */
    function Detailed(a: AchievementWithStudent): (d: AchievementWithStudent)
      reads repo
      ensures d.reference == a.reference && d.studentNumber == a.studentNumber && d.studentName == a.studentName && d.programStudy == a.programStudy
      ensures repo.GetAchievementDetailFromMongo(a.reference.mongoAchievementId).Ok? ==>
                d.details == Some(repo.GetAchievementDetailFromMongo(a.reference.mongoAchievementId).value)
      ensures repo.GetAchievementDetailFromMongo(a.reference.mongoAchievementId).Err? ==> d == a
    {
      match repo.GetAchievementDetailFromMongo(a.reference.mongoAchievementId)
      case Ok(doc) => a.(details := Some(doc))
      case Err(_) => a
    }

    /** The details loop of both listings; a failed fetch does not fail the listing. */
    method FillDetails(items: seq<AchievementWithStudent>) returns (filled: seq<AchievementWithStudent>)
      ensures |filled| == |items|
      ensures forall i :: 0 <= i < |items| ==> filled[i] == Detailed(items[i])
    {
      filled := items;
      var i := 0;
      while i < |filled|
        invariant 0 <= i <= |filled| == |items|
        invariant forall j :: 0 <= j < i ==> filled[j] == Detailed(items[j])
        invariant forall j :: i <= j < |items| ==> filled[j] == items[j]
      {
        var detail := repo.GetAchievementDetailFromMongo(filled[i].reference.mongoAchievementId);
        if detail.Ok? {
          filled := filled[i := filled[i].(details := Some(detail.value))];
        }
        i := i + 1;
      }
    }

    /** The listing for a lecturer: the achievements of the lecturer's advisees. */
    method GetStudentAchievements(userId: Uuid, status: string, page: int, limit: int) returns (r: Result<AchievementListResponse>)
      ensures userId !in repo.lecturerAccounts ==> r == Err(LecturerNotFoundForUser)
      ensures userId in repo.lecturerAccounts ==>
                var p, l := NormalizePage(page), NormalizeLimit(limit);
                match repo.Read(AdviseeIdsStatement(repo.lecturerAccounts[userId].id), AsId)
                case Err(_) => r == Err(FailedStudentList)
                case Ok(ids) =>
                  if |ids| == 0 then r == Ok(AchievementListResponse([], Metadata(p, l, 0)))
                  else match repo.Listing(StudentInfoStatements(ids, status, p, l))
                       case Err(_) => r == Err(FailedAchievements)
                       case Ok(found) =>
                         r.Ok? && r.value.pagination == Metadata(p, l, found.total) &&
                         |r.value.achievements| == |found.items| &&
                         forall i :: 0 <= i < |found.items| ==> r.value.achievements[i] == Detailed(found.items[i])
    {
      var p, l := page, limit;
      if p < 1 {
        p := 1;
      }
      if l < 1 || l > 100 {
        l := 10;
      }
      var lecturer := repo.GetLecturerByUserID(userId);
      if lecturer.None? {
        return Err(LecturerNotFoundForUser);
      }
      var ids := repo.GetStudentIDsByAdvisorID(lecturer.value.id);
      if ids.Err? {
        return Err(FailedStudentList);
      }
      if |ids.value| == 0 {
        return Ok(AchievementListResponse([], Metadata(p, l, 0)));
      }
      var found := repo.GetAchievementsWithStudentInfo(ids.value, status, p, l);
      if found.Err? {
        return Err(FailedAchievements);
      }
      var achievements := FillDetails(found.value.items);
      r := Ok(AchievementListResponse(achievements, Metadata(p, l, found.value.total)));
    }

    /** The administrator's listing over every achievement. */
    method GetAllAchievementsForAdmin(f: AdminAchievementFilters, page: int, limit: int) returns (r: Result<AchievementListResponse>)
      ensures var p, l := NormalizePage(page), NormalizeLimit(limit);
              match repo.Listing(AdminStatements(f, p, l))
              case Err(_) => r == Err(FailedAchievements)
              case Ok(found) =>
                r.Ok? && r.value.pagination == Metadata(p, l, found.total) &&
                |r.value.achievements| == |found.items| &&
                forall i :: 0 <= i < |found.items| ==> r.value.achievements[i] == Detailed(found.items[i])
    {
      var p, l := page, limit;
      if p < 1 {
        p := 1;
      }
      if l < 1 || l > 100 {
        l := 10;
      }
      var found := repo.GetAllAchievementsForAdmin(f, p, l);
      if found.Err? {
        return Err(FailedAchievements);
      }
      var achievements := FillDetails(found.value.items);
      r := Ok(AchievementListResponse(achievements, Metadata(p, l, found.value.total)));
    }

    // ----- statistics -----

    /** Whose achievements the statistics cover: a student's own, a lecturer's
        advisees, and for anyone else the student named in the filters or
        every student. */
    function Scope(userId: Uuid, f: StatisticsFilters): Result<seq<Uuid>> {
      if userId in repo.studentAccounts then Ok([repo.studentAccounts[userId].id])
      else if userId in repo.lecturerAccounts then
        match repo.Read(AdviseeIdsStatement(repo.lecturerAccounts[userId].id), AsId)
        case Err(_) => Err(FailedStudentList)
        case Ok(ids) => Ok(ids)
      else if f.studentId.Some? then Ok([f.studentId.value])
      else
        match repo.Read(AllStudentIdsStatement(), AsId)
        case Err(_) => Err(FailedAllStudents)
        case Ok(ids) => Ok(ids)
    }

    method ResolveScope(userId: Uuid, f: StatisticsFilters) returns (r: Result<seq<Uuid>>)
      ensures r == Scope(userId, f)
    {
      var student := repo.GetStudentByUserID(userId);
      if student.Some? {
        return Ok([student.value.id]);
      }
      var lecturer := repo.GetLecturerByUserID(userId);
      if lecturer.Some? {
        var ids := repo.GetStudentIDsByAdvisorID(lecturer.value.id);
        if ids.Err? {
          return Err(FailedStudentList);
        }
        return Ok(ids.value);
      }
      if f.studentId.Some? {
        return Ok([f.studentId.value]);
      }
      var all := repo.GetAllStudentIDs();
      if all.Err? {
        return Err(FailedAllStudents);
      }
      r := Ok(all.value);
    }

    /** A secondary list that fails to load is shown empty. */
    function OrEmpty<T>(r: Result<seq<T>>): seq<T> {
      if r.Ok? then r.value else []
    }

    /** The statistics over a scope. The by-type and by-level tallies are
        always empty here. */
    function Statistics(userId: Uuid, f: StatisticsFilters): (r: Result<AchievementStatistics>)
      ensures Scope(userId, f).Err? ==> r == Err(Scope(userId, f).error)
      ensures Scope(userId, f) == Ok([]) ==> r == Ok(EmptyStatistics)
      ensures r.Ok? ==> r.value.byType == multiset{} && r.value.levelDistribution == multiset{}
    {
      match Scope(userId, f)
      case Err(e) => Err(e)
      case Ok(ids) =>
        if |ids| == 0 then Ok(EmptyStatistics)
        else
          match CountOf(repo.AnswerTo(TotalStatement(ids, f)))
          case Err(_) => Err(FailedTotal)
          case Ok(total) =>
            Ok(AchievementStatistics(
              total, multiset{},
              OrEmpty(repo.Read(PeriodStatement(ids, f), AsPeriod)),
              OrEmpty(repo.Read(TopStudentsStatement(ids, f, TopStudentsLimit), AsTopStudent)),
              multiset{},
              OrEmpty(repo.Read(StatusDistributionStatement(ids, f), AsStatus))))
    }

    method GetAchievementStatistics(userId: Uuid, f: StatisticsFilters) returns (r: Result<AchievementStatistics>)
      ensures r == Statistics(userId, f)
    {
      var scope := ResolveScope(userId, f);
      if scope.Err? {
        return Err(scope.error);
      }
      var ids := scope.value;
      if |ids| == 0 {
        return Ok(EmptyStatistics);
      }
      var total := repo.GetTotalAchievements(ids, f);
      if total.Err? {
        return Err(FailedTotal);
      }
      var byPeriod := repo.GetStatisticsByPeriod(ids, f);
      var topStudents := repo.GetTopStudents(ids, f, TopStudentsLimit);
      var statusDist := repo.GetStatusDistribution(ids, f);
      r := Ok(AchievementStatistics(total.value, multiset{}, OrEmpty(byPeriod), OrEmpty(topStudents), multiset{}, OrEmpty(statusDist)));
    }

    /** The student named in the filters only scopes an administrator's
        statistics. */
    lemma FilterStudentOnlyScopesAdministrators(userId: Uuid, f: StatisticsFilters, other: Option<Uuid>)
      requires userId in repo.studentAccounts || userId in repo.lecturerAccounts
      ensures Scope(userId, f) == Scope(userId, f.(studentId := other))
    {
    }

    /** The status distribution does not depend on the status filter. */
    lemma StatusDistributionIgnoresStatusFilter(userId: Uuid, f: StatisticsFilters, status: string)
      requires Statistics(userId, f).Ok? && Statistics(userId, f.(status := status)).Ok?
      ensures Statistics(userId, f).value.statusDistribution == Statistics(userId, f.(status := status)).value.statusDistribution
    {
      var g := f.(status := status);
      assert Scope(userId, f) == Scope(userId, g);
      var ids := Scope(userId, f).value;
      StatusShown(userId, f);
      StatusShown(userId, g);
      if ids != [] {
        StatusDistributionIgnoresStatus(ids, f, status);
      }
    }

    /** The status distribution shown is the status query's answer over the
        scope, or empty. */
    lemma StatusShown(userId: Uuid, f: StatisticsFilters)
      requires Statistics(userId, f).Ok?
      ensures Scope(userId, f).Ok?
      ensures var ids := Scope(userId, f).value;
              Statistics(userId, f).value.statusDistribution ==
                if ids == [] then [] else OrEmpty(repo.Read(StatusDistributionStatement(ids, f), AsStatus))
    {
    }
  }
}
